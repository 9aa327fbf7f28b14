/** Recording a successful charge: open an invoice, append the ledger charge, mark
    the invoice paid.  The process may die between any two of the three writes. */
module Books {
  import opened Calendar
  import opened Keys
  import opened Ledger
  import opened Prelude

  datatype InvoiceStatus = Open | Paid

  /** An invoice opened for a charge; its idempotency key is made of its
      subscription and the charge reference. */
  datatype Invoice = Invoice(sub: string, ref: string, amount: int, status: InvoiceStatus)

  function KeyOf(i: Invoice): string { InvoiceKey(i.sub, i.ref) }

  datatype Tables = Tables(invoices: seq<Invoice>, ledger: seq<Entry>)

  datatype ChargeInfo = ChargeInfo(sub: string, ref: string, amount: int, account: Account, at: Stamp)

  predicate HasInvoice(t: Tables, key: string) {
    exists i :: 0 <= i < |t.invoices| && KeyOf(t.invoices[i]) == key
  }

  /** Whether step 1 goes through: the invoice key is unused and the amount is
      not negative. */
  predicate Fresh(t: Tables, c: ChargeInfo) {
    !HasInvoice(t, InvoiceKey(c.sub, c.ref)) && c.amount >= 0
  }

  function Opened(t: Tables, c: ChargeInfo): Tables {
    t.(invoices := t.invoices + [Invoice(c.sub, c.ref, c.amount, Open)])
  }

  function ChargeEntry(c: ChargeInfo, invoice: nat): Entry {
    EntryOf(RecordCharge(c.sub, invoice, c.amount), c.account, ChargeKey(c.sub, c.ref), c.at)
  }

  function Posted(t: Tables, c: ChargeInfo, invoice: nat): Tables {
    t.(ledger := Appended(t.ledger, ChargeEntry(c, invoice)))
  }

  function Settled(t: Tables, invoice: nat): Tables
    requires invoice < |t.invoices|
  {
    t.(invoices := t.invoices[invoice := t.invoices[invoice].(status := Paid)])
  }

  /** The tables after the first `writes` database writes of a recording. */
  function Recorded(t: Tables, c: ChargeInfo, writes: nat): Tables {
    if writes == 0 || !Fresh(t, c) then t
    else
      var id := |t.invoices|;
      var drafted := Opened(t, c);
      if writes == 1 then drafted
      else
        var posted := Posted(drafted, c, id);
        if writes == 2 then posted else Settled(posted, id)
  }

  class Store {
    var invoices: seq<Invoice>
    var ledger: seq<Entry>

    constructor ()
      ensures invoices == [] && ledger == []
    {
      invoices, ledger := [], [];
    }

    function State(): Tables
      reads this
    {
      Tables(invoices, ledger)
    }

    /** INSERT INTO invoices with a unique key. */
    method CreateInvoice(c: ChargeInfo) returns (id: Option<nat>)
      modifies this`invoices
      ensures if old(Fresh(State(), c)) then id == Some(old(|invoices|)) && State() == old(Opened(State(), c))
              else id == None && State() == old(State())
    {
      if HasInvoice(State(), InvoiceKey(c.sub, c.ref)) || c.amount < 0 { return None; }
      id := Some(|invoices|);
      invoices := invoices + [Invoice(c.sub, c.ref, c.amount, Open)];
    }

    method AppendCharge(c: ChargeInfo, invoice: nat) returns (ok: bool)
      modifies this`ledger
      ensures State() == old(Posted(State(), c, invoice))
      ensures ok == old(Admissible(ledger, ChargeEntry(c, invoice)))
    {
      var e := ChargeEntry(c, invoice);
      ok := e.amount >= 0 && !HasKey(ledger, e.key);
      if ok { ledger := ledger + [e]; }
    }

    /** Any other row for the ledger. */
    method AppendRow(e: Entry)
      modifies this`ledger
      ensures State() == old(State()).(ledger := Appended(old(ledger), e))
    {
      if e.amount >= 0 && !HasKey(ledger, e.key) { ledger := ledger + [e]; }
    }

    method MarkPaid(invoice: nat)
      requires invoice < |invoices|
      modifies this`invoices
      ensures State() == old(Settled(State(), invoice))
    {
      invoices := invoices[invoice := invoices[invoice].(status := Paid)];
    }

    /** The three writes in order.  A refused invoice ends the recording; a refused
        ledger row is only logged.  The process dies after `writes` writes. */
    method CreateInvoiceForCharge(c: ChargeInfo, writes: nat)
      modifies this
      ensures State() == old(Recorded(State(), c, writes))
    {
      if writes == 0 { return; }
      var id := CreateInvoice(c);
      if id.None? || writes == 1 { return; }
      var posted := AppendCharge(c, id.value);
      if writes == 2 { return; }
      MarkPaid(id.value);
    }
  }

  // ------------------------------------------------------------------
  // What every run keeps
  // ------------------------------------------------------------------

  const CHARGE_PREFIX := "ledger-charge-"

  /** A row written by step 2. */
  predicate FromCharge(e: Entry) { HasPrefix(e.key, CHARGE_PREFIX) }

  /** The row is the charge of one of the invoices, for the same amount. */
  predicate Backed(invoices: seq<Invoice>, e: Entry) {
    && e.kind == Charge && e.invoice.Some? && e.invoice.value < |invoices|
    && var i := invoices[e.invoice.value];
       e.key == ChargeKey(i.sub, i.ref) && e.sub == Some(i.sub) && e.amount == i.amount
  }

  predicate ChargedFor(ledger: seq<Entry>, invoice: nat) {
    exists k :: 0 <= k < |ledger| && FromCharge(ledger[k]) && ledger[k].invoice == Some(invoice)
  }

  ghost predicate Consistent(t: Tables) {
    && (forall i, j :: 0 <= i < j < |t.invoices| ==> KeyOf(t.invoices[i]) != KeyOf(t.invoices[j]))
    && (forall i :: 0 <= i < |t.invoices| ==> IsId(t.invoices[i].sub) && t.invoices[i].amount >= 0)
    && DistinctKeys(t.ledger)
    && (forall k :: 0 <= k < |t.ledger| && FromCharge(t.ledger[k]) ==> Backed(t.invoices, t.ledger[k]))
    && (forall i :: 0 <= i < |t.invoices| && t.invoices[i].status == Paid ==> ChargedFor(t.ledger, i))
  }

  /** A run of the store: recordings that may be cut short, and other ledger rows,
      whose keys start differently. */
  datatype Op = Recording(charge: ChargeInfo, writes: nat) | OtherRow(entry: Entry)

  predicate Legal(op: Op) {
    match op
    case Recording(c, _) => IsId(c.sub)
    case OtherRow(e) => !FromCharge(e)
  }

  function Applied(t: Tables, op: Op): Tables {
    match op
    case Recording(c, writes) => Recorded(t, c, writes)
    case OtherRow(e) => t.(ledger := Appended(t.ledger, e))
  }

  function RunOps(t: Tables, ops: seq<Op>): Tables
    decreases |ops|
  {
    if ops == [] then t else RunOps(Applied(t, ops[0]), ops[1..])
  }

  lemma ChargeKeyHasPrefix(sub: string, ref: string)
    ensures HasPrefix(ChargeKey(sub, ref), CHARGE_PREFIX)
  {
    assert ChargeKey(sub, ref) == CHARGE_PREFIX + (sub + "-" + ref);
  }

  /** A charge row exists only beside an invoice of the same subscription and
      reference: this is where both key encodings being injective is used. */
  lemma ChargeRowMeansInvoice(t: Tables, c: ChargeInfo)
    requires Consistent(t) && IsId(c.sub)
    requires HasKey(t.ledger, ChargeKey(c.sub, c.ref))
    ensures HasInvoice(t, InvoiceKey(c.sub, c.ref))
  {
    var k :| 0 <= k < |t.ledger| && t.ledger[k].key == ChargeKey(c.sub, c.ref);
    ChargeKeyHasPrefix(c.sub, c.ref);
    assert Backed(t.invoices, t.ledger[k]);
    var i := t.invoices[t.ledger[k].invoice.value];
    ChargeKeyIsInjective(c.sub, c.ref, i.sub, i.ref);
    assert KeyOf(i) == InvoiceKey(c.sub, c.ref);
  }

  /** The append never collides after a fresh invoice. */
  lemma FreshInvoiceMeansFreshCharge(t: Tables, c: ChargeInfo)
    requires Consistent(t) && IsId(c.sub) && Fresh(t, c)
    ensures Admissible(t.ledger, ChargeEntry(c, |t.invoices|))
  {
    if HasKey(t.ledger, ChargeKey(c.sub, c.ref)) { ChargeRowMeansInvoice(t, c); }
  }

  lemma OpenedIsConsistent(t: Tables, c: ChargeInfo)
    requires Consistent(t) && IsId(c.sub) && Fresh(t, c)
    ensures Consistent(Opened(t, c))
  {
    var u := Opened(t, c);
    forall k | 0 <= k < |u.ledger| && FromCharge(u.ledger[k])
      ensures Backed(u.invoices, u.ledger[k])
    {
      assert Backed(t.invoices, t.ledger[k]);
    }
  }

  lemma AppendKeepsCharged(ledger: seq<Entry>, e: Entry, invoice: nat)
    requires ChargedFor(ledger, invoice)
    ensures ChargedFor(ledger + [e], invoice)
  {
    var k :| 0 <= k < |ledger| && FromCharge(ledger[k]) && ledger[k].invoice == Some(invoice);
    assert (ledger + [e])[k] == ledger[k];
  }

  lemma RowIsConsistent(t: Tables, e: Entry)
    requires Consistent(t) && Admissible(t.ledger, e)
    requires FromCharge(e) ==> Backed(t.invoices, e)
    ensures Consistent(t.(ledger := t.ledger + [e]))
  {
    forall i | 0 <= i < |t.invoices| && t.invoices[i].status == Paid
      ensures ChargedFor(t.ledger + [e], i)
    {
      AppendKeepsCharged(t.ledger, e, i);
    }
  }

  lemma SettledIsConsistent(t: Tables, invoice: nat)
    requires Consistent(t) && invoice < |t.invoices| && ChargedFor(t.ledger, invoice)
    ensures Consistent(Settled(t, invoice))
  {
    var u := Settled(t, invoice);
    forall k | 0 <= k < |u.ledger| && FromCharge(u.ledger[k])
      ensures Backed(u.invoices, u.ledger[k])
    {
      assert Backed(t.invoices, t.ledger[k]);
    }
  }

  lemma RecordedIsConsistent(t: Tables, c: ChargeInfo, writes: nat)
    requires Consistent(t) && IsId(c.sub)
    ensures Consistent(Recorded(t, c, writes))
  {
    if writes > 0 && Fresh(t, c) {
      var id := |t.invoices|;
      var drafted := Opened(t, c);
      OpenedIsConsistent(t, c);
      if writes > 1 {
        FreshInvoiceMeansFreshCharge(t, c);
        ChargeKeyHasPrefix(c.sub, c.ref);
        var e := ChargeEntry(c, id);
        RowIsConsistent(drafted, e);
        var posted := Posted(drafted, c, id);
        assert posted.ledger[|t.ledger|] == e;
        SettledIsConsistent(posted, id);
      }
    }
  }

  lemma {:induction false} RunKeepsConsistent(t: Tables, ops: seq<Op>)
    requires Consistent(t) && forall i :: 0 <= i < |ops| ==> Legal(ops[i])
    ensures Consistent(RunOps(t, ops))
    decreases |ops|
  {
    if ops != [] {
      match ops[0] {
        case Recording(c, writes) => RecordedIsConsistent(t, c, writes);
        case OtherRow(e) => if Admissible(t.ledger, e) { RowIsConsistent(t, e); }
      }
      assert Legal(ops[0]);
      RunKeepsConsistent(Applied(t, ops[0]), ops[1..]);
    }
  }

  /** Main invariant of recording, over every run from empty tables, whatever was
      cut short: each charge row has its own invoice of equal amount, each paid
      invoice has its charge row, and a subscription and reference are charged in
      at most one row. */
  lemma EveryRunIsConsistent(ops: seq<Op>)
    requires forall i :: 0 <= i < |ops| ==> Legal(ops[i])
    ensures Consistent(RunOps(Tables([], []), ops))
    ensures OneRowPerCharge(RunOps(Tables([], []), ops))
  {
    RunKeepsConsistent(Tables([], []), ops);
    ChargesHaveTheirOwnInvoices(RunOps(Tables([], []), ops));
  }

  lemma ChargesHaveTheirOwnInvoices(t: Tables)
    requires Consistent(t)
    ensures OneRowPerCharge(t)
  {
    forall j, k | 0 <= j < k < |t.ledger| && FromCharge(t.ledger[j]) && FromCharge(t.ledger[k])
      ensures t.ledger[j].key != t.ledger[k].key && t.ledger[j].invoice != t.ledger[k].invoice
    {
      InvoiceGivesKey(t, j);
      InvoiceGivesKey(t, k);
      assert t.ledger[j].key != t.ledger[k].key;
    }
  }

  function ChargeKeyOf(invoices: seq<Invoice>, i: nat): string
    requires i < |invoices|
  {
    ChargeKey(invoices[i].sub, invoices[i].ref)
  }

  lemma InvoiceGivesKey(t: Tables, k: nat)
    requires Consistent(t) && k < |t.ledger| && FromCharge(t.ledger[k])
    ensures t.ledger[k].invoice.Some? && t.ledger[k].invoice.value < |t.invoices|
    ensures t.ledger[k].key == ChargeKeyOf(t.invoices, t.ledger[k].invoice.value)
  {
    assert Backed(t.invoices, t.ledger[k]);
  }

  predicate OneRowPerCharge(t: Tables) {
    forall j, k :: 0 <= j < k < |t.ledger| && FromCharge(t.ledger[j]) && FromCharge(t.ledger[k]) ==>
      t.ledger[j].key != t.ledger[k].key && t.ledger[j].invoice != t.ledger[k].invoice
  }

  // ------------------------------------------------------------------
  // Totals
  // ------------------------------------------------------------------

  function Invoiced(invoices: seq<Invoice>): int {
    if invoices == [] then 0 else Invoiced(invoices[..|invoices| - 1]) + invoices[|invoices| - 1].amount
  }

  function PaidAmount(i: Invoice): int { if i.status == Paid then i.amount else 0 }

  function PaidTotal(invoices: seq<Invoice>): int {
    if invoices == [] then 0
    else PaidTotal(invoices[..|invoices| - 1]) + PaidAmount(invoices[|invoices| - 1])
  }

  function ChargeRows(): Entry -> bool { (e: Entry) => FromCharge(e) }

  predicate Complete(op: Op) { op.Recording? ==> op.writes >= 3 }

  /** What one operation adds to invoices, charge rows and paid invoices. */
  lemma RecordedTotals(t: Tables, c: ChargeInfo, writes: nat)
    requires Consistent(t) && IsId(c.sub)
    ensures var u := Recorded(t, c, writes);
      var added := if Fresh(t, c) then c.amount else 0;
      && Invoiced(u.invoices) == Invoiced(t.invoices) + (if writes >= 1 then added else 0)
      && Total(u.ledger, ChargeRows()) == Total(t.ledger, ChargeRows()) + (if writes >= 2 then added else 0)
      && PaidTotal(u.invoices) == PaidTotal(t.invoices) + (if writes >= 3 then added else 0)
  {
    if writes > 0 && Fresh(t, c) {
      FreshInvoiceMeansFreshCharge(t, c);
      RecordedWhenFresh(t, c, writes);
      ChargeKeyHasPrefix(c.sub, c.ref);
      TotalOfAppend(t.ledger, ChargeEntry(c, |t.invoices|), ChargeRows());
      InvoiceAppended(t.invoices, Invoice(c.sub, c.ref, c.amount, if writes >= 3 then Paid else Open));
    }
  }

  /** The rows a recording leaves when nothing is refused. */
  lemma RecordedWhenFresh(t: Tables, c: ChargeInfo, writes: nat)
    requires writes > 0 && Fresh(t, c) && Admissible(t.ledger, ChargeEntry(c, |t.invoices|))
    ensures Recorded(t, c, writes).invoices
      == t.invoices + [Invoice(c.sub, c.ref, c.amount, if writes >= 3 then Paid else Open)]
    ensures Recorded(t, c, writes).ledger
      == if writes >= 2 then t.ledger + [ChargeEntry(c, |t.invoices|)] else t.ledger
  {}

  lemma InvoiceAppended(invoices: seq<Invoice>, i: Invoice)
    ensures Invoiced(invoices + [i]) == Invoiced(invoices) + i.amount
    ensures PaidTotal(invoices + [i]) == PaidTotal(invoices) + PaidAmount(i)
  {
    assert (invoices + [i])[..|invoices|] == invoices;
  }

  /** Invoices cover charge rows, charge rows cover paid invoices, and a run in
      which nothing was cut short leaves the three totals equal. */
  lemma {:induction false} TotalsOverARun(t: Tables, ops: seq<Op>)
    requires Consistent(t) && forall i :: 0 <= i < |ops| ==> Legal(ops[i])
    requires Invoiced(t.invoices) >= Total(t.ledger, ChargeRows()) >= PaidTotal(t.invoices)
    ensures var u := RunOps(t, ops);
      && Invoiced(u.invoices) >= Total(u.ledger, ChargeRows()) >= PaidTotal(u.invoices)
      && ((forall i :: 0 <= i < |ops| ==> Complete(ops[i]))
          && Invoiced(t.invoices) == Total(t.ledger, ChargeRows()) == PaidTotal(t.invoices)
          ==> Invoiced(u.invoices) == Total(u.ledger, ChargeRows()) == PaidTotal(u.invoices))
    decreases |ops|
  {
    if ops != [] {
      assert Legal(ops[0]);
      RunKeepsConsistent(t, ops[..1]);
      assert ops[..1] == [ops[0]] && RunOps(t, ops[..1]) == Applied(t, ops[0]);
      match ops[0] {
        case Recording(c, writes) => RecordedTotals(t, c, writes);
        case OtherRow(e) => TotalOfAppend(t.ledger, e, ChargeRows());
      }
      TotalsOverARun(Applied(t, ops[0]), ops[1..]);
    }
  }

  /** A recording uses up its own subscription and reference, and no other. */
  lemma RecordingUsesOneReference(t: Tables, c: ChargeInfo, writes: nat, d: ChargeInfo)
    requires IsId(c.sub) && IsId(d.sub)
    ensures Fresh(Recorded(t, c, writes), d) <==>
      Fresh(t, d) && !(writes >= 1 && Fresh(t, c) && d.sub == c.sub && d.ref == c.ref)
  {
    var u, key := Recorded(t, c, writes), InvoiceKey(d.sub, d.ref);
    if writes > 0 && Fresh(t, c) {
      InvoiceKeyIsInjective(c.sub, c.ref, d.sub, d.ref);
      assert KeyOf(u.invoices[|t.invoices|]) == InvoiceKey(c.sub, c.ref);
      assert forall i :: 0 <= i < |t.invoices| ==> KeyOf(u.invoices[i]) == KeyOf(t.invoices[i]);
    }
  }

  // ------------------------------------------------------------------
  // Where the money shows up
  // ------------------------------------------------------------------

  function ChargedIn(t: Tables, a: Account, from: int, to: int): int { SummaryQuery(t.ledger, a, from, to).charged }

  predicate Dated(account: Account, at: Stamp, a: Account, from: int, to: int) {
    account == a && from <= Instant(at) <= to
  }

  /** A recording counts as charged, once its ledger row is written, for the account and
      at the time of the charge, and for no other account, mode or time. */
  lemma RecordingIsChargedWhere(t: Tables, c: ChargeInfo, writes: nat, a: Account, from: int, to: int)
    requires Consistent(t) && IsId(c.sub)
    ensures ChargedIn(Recorded(t, c, writes), a, from, to) == ChargedIn(t, a, from, to)
      + if Fresh(t, c) && writes >= 2 && c.account == a && from <= Instant(c.at) <= to then c.amount else 0
  {
    if writes > 0 && Fresh(t, c) {
      FreshInvoiceMeansFreshCharge(t, c);
      RecordedWhenFresh(t, c, writes);
      TotalOfAppend(t.ledger, ChargeEntry(c, |t.invoices|), KindIn(Charge, a, from, to));
    }
  }

  /** What one operation adds to the charges of an account and range. */
  function ChargedBy(t: Tables, op: Op, a: Account, from: int, to: int): int {
    match op
    case Recording(c, writes) =>
      if Fresh(t, c) && writes >= 2 && Dated(c.account, c.at, a, from, to) then c.amount else 0
    case OtherRow(e) =>
      if Admissible(t.ledger, e) && e.kind == Charge && Dated(e.account, e.at, a, from, to) then e.amount else 0
  }

  function ChargedByAll(t: Tables, ops: seq<Op>, a: Account, from: int, to: int): int
    decreases |ops|
  {
    if ops == [] then 0
    else ChargedBy(t, ops[0], a, from, to) + ChargedByAll(Applied(t, ops[0]), ops[1..], a, from, to)
  }

  lemma OpIsChargedWhere(t: Tables, op: Op, a: Account, from: int, to: int)
    requires Consistent(t) && Legal(op)
    ensures Consistent(Applied(t, op))
    ensures ChargedIn(Applied(t, op), a, from, to) == ChargedIn(t, a, from, to) + ChargedBy(t, op, a, from, to)
  {
    match op
    case Recording(c, writes) =>
      RecordedIsConsistent(t, c, writes);
      RecordingIsChargedWhere(t, c, writes, a, from, to);
    case OtherRow(e) =>
      if Admissible(t.ledger, e) { RowIsConsistent(t, e); }
      TotalOfAppend(t.ledger, e, KindIn(Charge, a, from, to));
  }

  /** Over every run of recordings cut short anywhere and other rows. */
  lemma {:induction false} RunIsChargedWhere(t: Tables, ops: seq<Op>, a: Account, from: int, to: int)
    requires Consistent(t) && forall i :: 0 <= i < |ops| ==> Legal(ops[i])
    ensures ChargedIn(RunOps(t, ops), a, from, to) == ChargedIn(t, a, from, to) + ChargedByAll(t, ops, a, from, to)
    decreases |ops|
  {
    if ops != [] {
      assert Legal(ops[0]);
      OpIsChargedWhere(t, ops[0], a, from, to);
      RunIsChargedWhere(Applied(t, ops[0]), ops[1..], a, from, to);
    }
  }

  // ------------------------------------------------------------------
  // "Every successful charge is recorded"
  // ------------------------------------------------------------------

  /** It is not: a complete recording leaves a new paid invoice and charge row
      exactly when no invoice has its subscription and reference yet; otherwise it
      leaves the tables as they were, and the money has no row. */
  lemma RecordedExactlyWhenFresh(t: Tables, c: ChargeInfo)
    requires Consistent(t) && IsId(c.sub) && c.amount >= 0
    ensures var u := Recorded(t, c, 3);
      var seen := exists i :: 0 <= i < |t.invoices| && t.invoices[i].sub == c.sub && t.invoices[i].ref == c.ref;
      if seen then u == t
      else && u.ledger == t.ledger + [ChargeEntry(c, |t.invoices|)]
           && u.invoices == t.invoices + [Invoice(c.sub, c.ref, c.amount, Paid)]
  {
    forall i | 0 <= i < |t.invoices|
      ensures KeyOf(t.invoices[i]) == InvoiceKey(c.sub, c.ref)
        <==> t.invoices[i].sub == c.sub && t.invoices[i].ref == c.ref
    {
      InvoiceKeyIsInjective(t.invoices[i].sub, t.invoices[i].ref, c.sub, c.ref);
    }
    if Fresh(t, c) { FreshInvoiceMeansFreshCharge(t, c); }
  }
}
