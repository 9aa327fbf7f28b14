/** Bank payouts.  A run of the handler reads the row, marks it processing, calls
    the bank unless in test mode, settles the row and appends the ledger debit; the
    process may die between any two of these steps, and runs may overlap. */
module Payouts {
  import opened Calendar
  import opened Keys
  import opened Ledger

  datatype Status = Pending | Processing | Completed | Failed

  datatype PayoutRow = PayoutRow(status: Status, amount: int, account: Account)

  /** Where a run stands: what it will do next is mark the row, call the bank,
      settle the row after a refusal or a success, or append the debit. */
  datatype Point = SawPending | Marked | Refused | Transferred | Recording

  datatype Exec = Exec(payout: string, point: Point)

  /** The tables, the runs in progress, and every call made to TransferToBank. */
  datatype World = World(payouts: map<string, PayoutRow>, ledger: seq<Entry>, live: map<nat, Exec>,
                         transfers: multiset<string>)

  datatype Event =
    | Request(id: string, amount: int, account: Account)
    | Start(worker: nat, id: string)
    | Work(worker: nat, success: bool, at: Stamp)
    | Crash(worker: nat)
    | OtherRow(entry: Entry)

  const PAYOUT_PREFIX := "payout-"

  predicate Enabled(w: World, e: Event) {
    match e
    case Request(id, amount, _) => id !in w.payouts && amount > 0
    case Start(v, _) => v !in w.live
    case Work(v, _, _) => v in w.live && w.live[v].payout in w.payouts
    case Crash(v) => v in w.live
    case OtherRow(row) => row.kind != Kind.Payout && !HasPrefix(row.key, PAYOUT_PREFIX)
  }

  function Marking(payouts: map<string, PayoutRow>, id: string, status: Status): map<string, PayoutRow>
    requires id in payouts
  {
    payouts[id := payouts[id].(status := status)]
  }

  function DebitEntry(p: PayoutRow, id: string, at: Stamp): Entry {
    EntryOf(RecordPayout(p.amount), p.account, PayoutKey(id), at)
  }

  /** The handler's first step: a row that is not pending ends the run. */
  function Started(w: World, v: nat, id: string): World {
    if id in w.payouts && w.payouts[id].status == Pending then w.(live := w.live[v := Exec(id, SawPending)]) else w
  }

  /** One further step of a run.  The row updates are by id alone, whatever the
      status is by then. */
  function Worked(w: World, v: nat, success: bool, at: Stamp): World
    requires v in w.live && w.live[v].payout in w.payouts
  {
    var id := w.live[v].payout;
    match w.live[v].point
    case SawPending => w.(payouts := Marking(w.payouts, id, Processing), live := w.live[v := Exec(id, Marked)])
    case Marked =>
      if w.payouts[id].account.mode == "test" then
        w.(payouts := Marking(w.payouts, id, Completed), live := w.live[v := Exec(id, Recording)])
      else
        w.(transfers := w.transfers + multiset{id},
           live := w.live[v := Exec(id, if success then Transferred else Refused)])
    case Refused => w.(payouts := Marking(w.payouts, id, Failed), live := w.live - {v})
    case Transferred => w.(payouts := Marking(w.payouts, id, Completed), live := w.live[v := Exec(id, Recording)])
    case Recording => w.(ledger := Appended(w.ledger, DebitEntry(w.payouts[id], id, at)), live := w.live - {v})
  }

  function Next(w: World, e: Event): World
    requires Enabled(w, e)
  {
    match e
    case Request(id, amount, account) => w.(payouts := w.payouts[id := PayoutRow(Pending, amount, account)])
    case Start(v, id) => Started(w, v, id)
    case Work(v, success, at) => Worked(w, v, success, at)
    case Crash(v) => w.(live := w.live - {v})
    case OtherRow(row) => w.(ledger := Appended(w.ledger, row))
  }

  predicate CanRun(w: World, es: seq<Event>)
    decreases |es|
  {
    es == [] || (Enabled(w, es[0]) && CanRun(Next(w, es[0]), es[1..]))
  }

  function Run(w: World, es: seq<Event>): World
    requires CanRun(w, es)
    decreases |es|
  {
    if es == [] then w else Run(Next(w, es[0]), es[1..])
  }

  const EMPTY := World(map[], [], map[], multiset{})

  // ------------------------------------------------------------------
  // The handler as one uninterrupted run
  // ------------------------------------------------------------------

  /** What `steps` steps of a run on its own do; a run cut short just stops. */
  function Alone(w: World, v: nat, success: bool, at: Stamp, steps: nat): World
    requires v in w.live ==> w.live[v].payout in w.payouts
    decreases steps
  {
    if v !in w.live then w
    else if steps == 0 then w.(live := w.live - {v})
    else Alone(Worked(w, v, success, at), v, success, at, steps - 1)
  }

  /** The same in closed form, for a payout that nobody else is processing. */
  function Processed(w: World, id: string, success: bool, at: Stamp, steps: nat): World {
    if id !in w.payouts || w.payouts[id].status != Pending || steps == 0 then w
    else
      var po := w.payouts[id];
      var test := po.account.mode == "test";
      var status :=
        if steps == 1 || (!test && steps == 2) then Processing else if test || success then Completed else Failed;
      var debited := status == Completed && steps >= (if test then 3 else 4);
      World(Marking(w.payouts, id, status),
            if debited then Appended(w.ledger, DebitEntry(po, id, at)) else w.ledger,
            map[],
            if !test && steps >= 2 then w.transfers + multiset{id} else w.transfers)
  }

  function At(w: World, id: string, p: Point): World { w.(live := map[0 := Exec(id, p)]) }

  lemma FromRecording(w: World, id: string, success: bool, at: Stamp, steps: nat)
    requires id in w.payouts
    ensures Alone(At(w, id, Recording), 0, success, at, steps)
      == w.(live := map[],
            ledger := if steps == 0 then w.ledger else Appended(w.ledger, DebitEntry(w.payouts[id], id, at)))
  {
    if steps > 0 {
      var next := Worked(At(w, id, Recording), 0, success, at);
      assert Alone(At(w, id, Recording), 0, success, at, steps) == Alone(next, 0, success, at, steps - 1);
    }
  }

  lemma FromAnswer(w: World, id: string, success: bool, at: Stamp, steps: nat)
    requires id in w.payouts && steps > 0
    ensures Alone(At(w, id, if success then Transferred else Refused), 0, success, at, steps)
      == if success
         then Alone(At(w.(payouts := Marking(w.payouts, id, Completed)), id, Recording), 0, success, at, steps - 1)
         else w.(payouts := Marking(w.payouts, id, Failed), live := map[])
  {
    var here := At(w, id, if success then Transferred else Refused);
    var next := Worked(here, 0, success, at);
    assert Alone(here, 0, success, at, steps) == Alone(next, 0, success, at, steps - 1);
    if success { assert next == At(w.(payouts := Marking(w.payouts, id, Completed)), id, Recording); }
  }

  lemma FromMarked(w: World, id: string, success: bool, at: Stamp, steps: nat)
    requires id in w.payouts && steps > 0
    ensures Alone(At(w, id, Marked), 0, success, at, steps)
      == if w.payouts[id].account.mode == "test"
         then Alone(At(w.(payouts := Marking(w.payouts, id, Completed)), id, Recording), 0, success, at, steps - 1)
         else Alone(At(w.(transfers := w.transfers + multiset{id}), id, if success then Transferred else Refused),
                    0, success, at, steps - 1)
  {
    var next := Worked(At(w, id, Marked), 0, success, at);
    assert Alone(At(w, id, Marked), 0, success, at, steps) == Alone(next, 0, success, at, steps - 1);
    if w.payouts[id].account.mode == "test" {
      assert next == At(w.(payouts := Marking(w.payouts, id, Completed)), id, Recording);
    } else {
      assert next == At(w.(transfers := w.transfers + multiset{id}), id, if success then Transferred else Refused);
    }
  }

  lemma FromStart(w: World, id: string, success: bool, at: Stamp, steps: nat)
    requires w.live == map[] && id in w.payouts && w.payouts[id].status == Pending && steps > 0
    ensures Alone(Started(w, 0, id), 0, success, at, steps)
      == Alone(At(w.(payouts := Marking(w.payouts, id, Processing)), id, Marked), 0, success, at, steps - 1)
  {
    var next := Worked(Started(w, 0, id), 0, success, at);
    assert next == At(w.(payouts := Marking(w.payouts, id, Processing)), id, Marked);
  }

  lemma MarkedToTheEnd(w: World, id: string, success: bool, at: Stamp, steps: nat)
    requires w.live == map[] && id in w.payouts && w.payouts[id].status == Pending && steps > 1
    ensures Alone(At(w.(payouts := Marking(w.payouts, id, Processing)), id, Marked), 0, success, at, steps - 1)
      == Processed(w, id, success, at, steps)
  {
    var w1 := w.(payouts := Marking(w.payouts, id, Processing));
    FromMarked(w1, id, success, at, steps - 1);
    MarkedTwice(w.payouts, id, Processing, Completed);
    MarkedTwice(w.payouts, id, Processing, Failed);
    var settled := w1.(payouts := Marking(w.payouts, id, Completed));
    if w.payouts[id].account.mode == "test" {
      FromRecording(settled, id, success, at, steps - 2);
    } else if steps > 2 {
      FromAnswer(w1.(transfers := w.transfers + multiset{id}), id, success, at, steps - 2);
      if success { FromRecording(settled.(transfers := w.transfers + multiset{id}), id, success, at, steps - 3); }
    }
  }

  lemma ProcessedIsARunAlone(w: World, id: string, success: bool, at: Stamp, steps: nat)
    requires w.live == map[]
    ensures Alone(Started(w, 0, id), 0, success, at, steps) == Processed(w, id, success, at, steps)
  {
    if id in w.payouts && w.payouts[id].status == Pending && steps > 0 {
      FromStart(w, id, success, at, steps);
      if steps > 1 { MarkedToTheEnd(w, id, success, at, steps); }
    }
  }

  lemma MarkedTwice(payouts: map<string, PayoutRow>, id: string, first: Status, second: Status)
    requires id in payouts
    ensures Marking(Marking(payouts, id, first), id, second) == Marking(payouts, id, second)
  {}

  class Processor {
    var payouts: map<string, PayoutRow>
    var ledger: seq<Entry>
    var transfers: multiset<string>

    function State(): World
      reads this
    {
      World(payouts, ledger, map[], transfers)
    }

    method Mark(id: string, status: Status)
      requires id in payouts
      modifies this`payouts
      ensures payouts == Marking(old(payouts), id, status)
    {
      payouts := payouts[id := payouts[id].(status := status)];
    }

    method TransferToBank(id: string)
      modifies this`transfers
      ensures transfers == old(transfers) + multiset{id}
    {
      transfers := transfers + multiset{id};
    }

    method RecordLedgerDebit(id: string, p: PayoutRow, at: Stamp)
      modifies this`ledger
      ensures ledger == Appended(old(ledger), DebitEntry(p, id, at))
    {
      var row := EntryOf(RecordPayout(p.amount), p.account, PayoutKey(id), at);
      if !HasKey(ledger, row.key) && row.amount >= 0 { ledger := ledger + [row]; }
    }

    /** `success` is the bank's answer; the process dies after `steps` steps. */
    method ProcessPayout(id: string, success: bool, at: Stamp, steps: nat) returns (found: bool)
      modifies this
      ensures found == (id in old(payouts))
      ensures State() == Processed(old(State()), id, success, at, steps)
    {
      found := id in payouts;
      if !found { return; }
      var po := payouts[id];
      if po.status != Pending || steps == 0 { return; }
      MarkedTwice(payouts, id, Processing, Completed);
      MarkedTwice(payouts, id, Processing, Failed);
      Mark(id, Processing);
      if steps == 1 { return; }
      if po.account.mode == "test" {
        Mark(id, Completed);
        if steps == 2 { return; }
        RecordLedgerDebit(id, po, at);
        return;
      }
      TransferToBank(id);
      if steps == 2 { return; }
      if !success {
        Mark(id, Failed);
        return;
      }
      Mark(id, Completed);
      if steps == 3 { return; }
      RecordLedgerDebit(id, po, at);
    }
  }

  // ------------------------------------------------------------------
  // What every run keeps, however its workers overlap
  // ------------------------------------------------------------------

  /** A PAYOUT row is the debit of a known payout: its key, amount and account. */
  predicate DebitOfPayout(payouts: map<string, PayoutRow>, row: Entry, id: string) {
    id in payouts && row.key == PayoutKey(id) && row.amount == payouts[id].amount && row.account == payouts[id].account
  }

  ghost predicate Booked(w: World) {
    && DistinctKeys(w.ledger)
    && (forall id :: id in w.payouts ==> w.payouts[id].amount > 0)
    && (forall v :: v in w.live ==> w.live[v].payout in w.payouts)
    && (forall k :: 0 <= k < |w.ledger| && w.ledger[k].kind == Kind.Payout ==>
          exists id :: DebitOfPayout(w.payouts, w.ledger[k], id))
    && (forall k :: 0 <= k < |w.ledger| && w.ledger[k].kind != Kind.Payout ==>
          !HasPrefix(w.ledger[k].key, PAYOUT_PREFIX))
  }

  lemma PayoutKeyFacts(a: string, b: string)
    ensures HasPrefix(PayoutKey(a), PAYOUT_PREFIX)
    ensures PayoutKey(a) == PayoutKey(b) ==> a == b
  {
    assert PayoutKey(a)[..7] == PAYOUT_PREFIX && PayoutKey(a)[7..] == a && PayoutKey(b)[7..] == b;
  }

  lemma SameDebits(w: World, u: World)
    requires Booked(w) && u.ledger == w.ledger
    requires forall id :: id in w.payouts ==>
      id in u.payouts && u.payouts[id].amount == w.payouts[id].amount && u.payouts[id].account == w.payouts[id].account
    ensures forall k :: 0 <= k < |u.ledger| && u.ledger[k].kind == Kind.Payout ==>
          exists id :: DebitOfPayout(u.payouts, u.ledger[k], id)
  {
    forall k | 0 <= k < |u.ledger| && u.ledger[k].kind == Kind.Payout
      ensures exists id :: DebitOfPayout(u.payouts, u.ledger[k], id)
    {
      var id :| DebitOfPayout(w.payouts, w.ledger[k], id);
      assert DebitOfPayout(u.payouts, u.ledger[k], id);
    }
  }

  lemma DebitIsBooked(w: World, e: Event)
    requires Booked(w) && e.Work? && Enabled(w, e) && w.live[e.worker].point == Recording
    ensures Booked(Next(w, e))
  {
    var u, id := Next(w, e), w.live[e.worker].payout;
    SameDebits(w, w.(live := u.live));
    if u.ledger != w.ledger {
      PayoutKeyFacts(id, id);
      assert u.ledger == w.ledger + [DebitEntry(w.payouts[id], id, e.at)];
      assert DebitOfPayout(u.payouts, u.ledger[|w.ledger|], id);
    }
  }

  lemma WorkIsBooked(w: World, e: Event)
    requires Booked(w) && e.Work? && Enabled(w, e)
    ensures Booked(Next(w, e))
  {
    if w.live[e.worker].point == Recording {
      DebitIsBooked(w, e);
    } else {
      SameDebits(w, Next(w, e));
    }
  }

  lemma StepIsBooked(w: World, e: Event)
    requires Booked(w) && Enabled(w, e)
    ensures Booked(Next(w, e))
  {
    if e.Work? {
      WorkIsBooked(w, e);
    } else if e.OtherRow? {
      SameDebits(w, w);
    } else {
      SameDebits(w, Next(w, e));
    }
  }

  /** In every run, overlapping or not, a payout has at most one PAYOUT row, and it
      is for the payout's amount and account. */
  lemma {:induction false} EveryRunIsBooked(w: World, es: seq<Event>)
    requires Booked(w) && CanRun(w, es)
    ensures Booked(Run(w, es))
    decreases |es|
  {
    if es != [] {
      StepIsBooked(w, es[0]);
      EveryRunIsBooked(Next(w, es[0]), es[1..]);
    }
  }

  lemma OneDebitPerPayout(w: World, id: string, j: nat, k: nat)
    requires Booked(w) && j < |w.ledger| && k < |w.ledger|
    requires DebitOfPayout(w.payouts, w.ledger[j], id) && DebitOfPayout(w.payouts, w.ledger[k], id)
    ensures j == k
  {}

  /** The step that debits a payout takes its amount from its own account, at the time of
      the step, and from nowhere else. */
  lemma DebitShowsWhere(w: World, e: Event, a: Account, from: int, to: int)
    requires Booked(w) && e.Work? && Enabled(w, e) && w.live[e.worker].point == Recording
    ensures var p := w.payouts[w.live[e.worker].payout];
      Total(Next(w, e).ledger, KindIn(Kind.Payout, a, from, to)) == Total(w.ledger, KindIn(Kind.Payout, a, from, to))
        + if !HasKey(w.ledger, PayoutKey(w.live[e.worker].payout)) && p.account == a && from <= Instant(e.at) <= to
          then p.amount else 0
  {
    var id := w.live[e.worker].payout;
    assert w.payouts[id].amount > 0;
    TotalOfAppend(w.ledger, DebitEntry(w.payouts[id], id, e.at), KindIn(Kind.Payout, a, from, to));
  }

  function DebitsOf(a: Account): Entry -> bool { AnyTime(Kind.Payout, a) }

  /** The rows that are no payouts. */
  function OthersOf(rows: seq<Entry>): seq<Entry> {
    if rows == [] then []
    else OthersOf(rows[..|rows| - 1]) + if rows[|rows| - 1].kind == Kind.Payout then [] else [rows[|rows| - 1]]
  }

  lemma {:induction false} TotalOfConcat(r: seq<Entry>, s: seq<Entry>, p: Entry -> bool)
    ensures Total(r + s, p) == Total(r, p) + Total(s, p)
  {
    if s == [] {
      assert r + s == r;
    } else {
      var n := |s| - 1;
      TotalOfConcat(r, s[..n], p);
      assert (r + s)[..|r + s| - 1] == r + s[..n];
    }
  }

  lemma AvailableOfConcat(r: seq<Entry>, s: seq<Entry>, a: Account, cutoff: int)
    ensures Available(r + s, a, cutoff) == Available(r, a, cutoff) + Available(s, a, cutoff)
  {
    TotalOfConcat(r, s, SettledKind(Charge, a, cutoff));
    TotalOfConcat(r, s, SettledKind(Refund, a, cutoff));
    TotalOfConcat(r, s, AnyTime(Kind.Payout, a));
  }

  lemma AvailableOfOne(e: Entry, a: Account, cutoff: int)
    requires e.kind == Kind.Payout
    ensures Available([e], a, cutoff) == -(if e.account == a then e.amount else 0)
  {
    TotalOfAppend([], e, SettledKind(Charge, a, cutoff));
    TotalOfAppend([], e, SettledKind(Refund, a, cutoff));
    TotalOfAppend([], e, AnyTime(Kind.Payout, a));
    assert [] + [e] == [e];
  }

  lemma {:induction false} AvailableSplits(rows: seq<Entry>, a: Account, cutoff: int)
    ensures Available(rows, a, cutoff) == Available(OthersOf(rows), a, cutoff) - Total(rows, DebitsOf(a))
  {
    if rows != [] {
      var front, e := rows[..|rows| - 1], rows[|rows| - 1];
      AvailableSplits(front, a, cutoff);
      assert rows == front + [e];
      AvailableOfConcat(front, [e], a, cutoff);
      if e.kind == Kind.Payout {
        AvailableOfOne(e, a, cutoff);
        assert OthersOf(rows) == OthersOf(front);
      } else {
        AvailableOfConcat(OthersOf(front), [e], a, cutoff);
      }
    }
  }

  lemma {:induction false} LedgerGrows(w: World, es: seq<Event>)
    requires CanRun(w, es)
    ensures w.ledger <= Run(w, es).ledger
    decreases |es|
  {
    if es != [] { LedgerGrows(Next(w, es[0]), es[1..]); }
  }

  /** Over every run, at every settlement cut-off, the available balance of an account
      changes by what the other rows that came in make of it, less exactly the PAYOUT
      rows the run added. */
  lemma AvailableFallsByTheDebits(w: World, es: seq<Event>, a: Account, cutoff: int)
    requires CanRun(w, es)
    ensures w.ledger <= Run(w, es).ledger
    ensures var added := Run(w, es).ledger[|w.ledger|..];
      Available(Run(w, es).ledger, a, cutoff) - Available(w.ledger, a, cutoff)
        == Available(OthersOf(added), a, cutoff) - Total(added, DebitsOf(a))
  {
    LedgerGrows(w, es);
    var added := Run(w, es).ledger[|w.ledger|..];
    assert Run(w, es).ledger == w.ledger + added;
    AvailableOfConcat(w.ledger, added, a, cutoff);
    AvailableSplits(added, a, cutoff);
  }

  // ------------------------------------------------------------------
  // What the bank was asked and what it answered
  // ------------------------------------------------------------------

  /** A known payout in live mode. */
  predicate IsLive(w: World, id: string) { id in w.payouts && w.payouts[id].account.mode != "test" }

  function AnsweredBy(w: World, e: Event, success: bool): set<string>
    requires Enabled(w, e)
  {
    if e.Work? && w.live[e.worker].point == Marked && IsLive(w, w.live[e.worker].payout) && e.success == success
    then {w.live[e.worker].payout} else {}
  }

  /** The payouts whose transfer the bank confirmed, or refused, during a run. */
  function Answered(w: World, es: seq<Event>, success: bool): set<string>
    requires CanRun(w, es)
    decreases |es|
  {
    if es == [] then {} else AnsweredBy(w, es[0], success) + Answered(Next(w, es[0]), es[1..], success)
  }

  /** With `yes` confirmed and `no` refused so far. */
  predicate AtAnswer(w: World, x: Exec, yes: set<string>, no: set<string>) {
    && x.payout in w.payouts
    && (x.point == Transferred ==> IsLive(w, x.payout) && x.payout in yes)
    && (x.point == Refused ==> IsLive(w, x.payout) && x.payout in no)
    && (x.point == Recording && IsLive(w, x.payout) ==> x.payout in yes)
  }

  predicate RowAnswered(w: World, id: string, yes: set<string>, no: set<string>)
    requires id in w.payouts
  {
    && (w.payouts[id].status == Completed && IsLive(w, id) ==> id in yes)
    && (w.payouts[id].status == Failed ==> IsLive(w, id) && id in no)
  }

  ghost predicate AsAnswered(w: World, yes: set<string>, no: set<string>) {
    && (forall id :: id in w.payouts ==> RowAnswered(w, id, yes, no))
    && (forall v :: v in w.live ==> AtAnswer(w, w.live[v], yes, no))
    && (forall id :: w.transfers[id] > 0 ==> IsLive(w, id))
  }

  lemma WorkedRowIsAnswered(w: World, e: Event, yes: set<string>, no: set<string>, id: string)
    requires AsAnswered(w, yes, no) && e.Work? && Enabled(w, e) && id in w.payouts
    ensures var u := Next(w, e);
      id in u.payouts && RowAnswered(u, id, yes + AnsweredBy(w, e, true), no + AnsweredBy(w, e, false))
  {
    assert RowAnswered(w, id, yes, no) && AtAnswer(w, w.live[e.worker], yes, no);
  }

  lemma WorkedRunIsAnswered(w: World, e: Event, yes: set<string>, no: set<string>, v: nat)
    requires AsAnswered(w, yes, no) && e.Work? && Enabled(w, e) && v in Next(w, e).live
    ensures AtAnswer(Next(w, e), Next(w, e).live[v], yes + AnsweredBy(w, e, true), no + AnsweredBy(w, e, false))
  {
    assert v in w.live && AtAnswer(w, w.live[v], yes, no);
    if v != e.worker { assert Next(w, e).live[v] == w.live[v]; }
  }

  lemma WorkIsAnswered(w: World, e: Event, yes: set<string>, no: set<string>)
    requires AsAnswered(w, yes, no) && e.Work? && Enabled(w, e)
    ensures AsAnswered(Next(w, e), yes + AnsweredBy(w, e, true), no + AnsweredBy(w, e, false))
  {
    var u := Next(w, e);
    var more, less := yes + AnsweredBy(w, e, true), no + AnsweredBy(w, e, false);
    forall v | v in u.live
      ensures AtAnswer(u, u.live[v], more, less)
    {
      WorkedRunIsAnswered(w, e, yes, no, v);
    }
    forall id | id in u.payouts
      ensures RowAnswered(u, id, more, less)
    {
      WorkedRowIsAnswered(w, e, yes, no, id);
    }
    WorkedTransfers(w, e, yes, no);
  }

  lemma WorkedTransfers(w: World, e: Event, yes: set<string>, no: set<string>)
    requires AsAnswered(w, yes, no) && e.Work? && Enabled(w, e)
    ensures forall id :: Next(w, e).transfers[id] > 0 ==> IsLive(Next(w, e), id)
  {
    assert forall id :: IsLive(w, id) ==> IsLive(Next(w, e), id);
  }

  lemma StepIsAnswered(w: World, e: Event, yes: set<string>, no: set<string>)
    requires AsAnswered(w, yes, no) && Enabled(w, e)
    ensures AsAnswered(Next(w, e), yes + AnsweredBy(w, e, true), no + AnsweredBy(w, e, false))
  {
    if e.Work? {
      WorkIsAnswered(w, e, yes, no);
    } else {
      var u := Next(w, e);
      forall v | v in u.live
        ensures AtAnswer(u, u.live[v], yes, no)
      {
        if v in w.live { assert AtAnswer(w, w.live[v], yes, no); }
      }
      forall id | id in u.payouts
        ensures RowAnswered(u, id, yes, no)
      {
        if id in w.payouts { assert RowAnswered(w, id, yes, no); }
      }
    }
  }

  lemma {:induction false} RunIsAnswered(w: World, es: seq<Event>, yes: set<string>, no: set<string>)
    requires AsAnswered(w, yes, no) && CanRun(w, es)
    ensures AsAnswered(Run(w, es), yes + Answered(w, es, true), no + Answered(w, es, false))
    decreases |es|
  {
    if es == [] {
      assert yes + {} == yes && no + {} == no;
    } else {
      var e := es[0];
      var more, less := yes + AnsweredBy(w, e, true), no + AnsweredBy(w, e, false);
      StepIsAnswered(w, e, yes, no);
      RunIsAnswered(Next(w, e), es[1..], more, less);
      assert yes + Answered(w, es, true) == more + Answered(Next(w, e), es[1..], true);
      assert no + Answered(w, es, false) == less + Answered(Next(w, e), es[1..], false);
    }
  }

  /** Over every run, overlapping or not: a live payout is completed only if the bank
      confirmed a transfer of it, one fails only if the bank refused one, and the bank is
      never called for a payout in test mode. */
  lemma SettledAsTheBankAnswered(es: seq<Event>, id: string)
    requires CanRun(EMPTY, es) && id in Run(EMPTY, es).payouts
    ensures var t := Run(EMPTY, es);
      && (IsLive(t, id) && t.payouts[id].status == Completed ==> id in Answered(EMPTY, es, true))
      && (t.payouts[id].status == Failed ==> IsLive(t, id) && id in Answered(EMPTY, es, false))
      && (t.payouts[id].account.mode == "test" ==> t.transfers[id] == 0)
  {
    RunIsAnswered(EMPTY, es, {}, {});
    assert RowAnswered(Run(EMPTY, es), id, {} + Answered(EMPTY, es, true), {} + Answered(EMPTY, es, false));
  }

  // ------------------------------------------------------------------
  // Runs in which no two workers read the same pending row
  // ------------------------------------------------------------------

  /** The admission rule: a run that reads a pending row is the only one to have
      read it and not yet marked it. */
  predicate Admitted(w: World, e: Event) {
    e.Start? && e.id in w.payouts && w.payouts[e.id].status == Pending ==>
      forall v :: v in w.live ==> w.live[v] != Exec(e.id, SawPending)
  }

  predicate AdmittedRun(w: World, es: seq<Event>)
    requires CanRun(w, es)
    decreases |es|
  {
    es == [] || (Admitted(w, es[0]) && AdmittedRun(Next(w, es[0]), es[1..]))
  }

  /** The row status each point of a run goes with, and the calls made by then. */
  predicate PointFits(p: Point, s: Status, calls: nat) {
    match p
    case SawPending => s == Pending && calls == 0
    case Marked => s == Processing && calls == 0
    case Refused => s == Processing && calls == 1
    case Transferred => s == Processing && calls == 1
    case Recording => s == Completed
  }

  /** Runs in progress are on different payouts, each where its row says. */
  predicate RunsFit(w: World) {
    && (forall v :: v in w.live ==> w.live[v].payout in w.payouts)
    && (forall u, v :: u in w.live && v in w.live && u != v ==> w.live[u].payout != w.live[v].payout)
    && (forall v :: v in w.live ==>
          PointFits(w.live[v].point, w.payouts[w.live[v].payout].status, w.transfers[w.live[v].payout]))
  }

  /** The bank is called at most once per payout, and not before it is marked. */
  ghost predicate CalledOnce(w: World) {
    && (forall id :: w.transfers[id] <= 1)
    && (forall id :: id !in w.payouts || w.payouts[id].status == Pending ==> w.transfers[id] == 0)
  }

  /** Debited payouts are completed, and no run on one is in progress. */
  ghost predicate DebitsFit(w: World) {
    && (forall k, id :: 0 <= k < |w.ledger| && id in w.payouts && w.ledger[k].key == PayoutKey(id) ==>
          w.payouts[id].status == Completed)
    && (forall v, k :: v in w.live && 0 <= k < |w.ledger| ==> w.ledger[k].key != PayoutKey(w.live[v].payout))
  }

  ghost predicate Orderly(w: World) { Booked(w) && RunsFit(w) && CalledOnce(w) && DebitsFit(w) }

  lemma RequestIsOrderly(w: World, e: Event)
    requires Orderly(w) && e.Request? && Enabled(w, e)
    ensures Orderly(Next(w, e))
  {
    StepIsBooked(w, e);
    forall k | 0 <= k < |w.ledger|
      ensures w.ledger[k].key != PayoutKey(e.id)
    {
      PayoutKeyFacts(e.id, e.id);
      if w.ledger[k].kind == Kind.Payout {
        var id :| DebitOfPayout(w.payouts, w.ledger[k], id);
        PayoutKeyFacts(id, e.id);
      }
    }
  }

  /** A step touches its own run, payout and call count only. */
  lemma WorkIsLocal(w: World, e: Event)
    requires e.Work? && Enabled(w, e)
    ensures var u, id := Next(w, e), w.live[e.worker].payout;
      && u.live - {e.worker} == w.live - {e.worker}
      && (e.worker in u.live ==> u.live[e.worker].payout == id)
      && u.payouts.Keys == w.payouts.Keys
      && (forall x :: x in w.payouts && x != id ==> u.payouts[x] == w.payouts[x])
      && (forall x :: x != id ==> u.transfers[x] == w.transfers[x])
  {}

  lemma WorkFitsItself(w: World, e: Event)
    requires RunsFit(w) && CalledOnce(w) && e.Work? && Enabled(w, e)
    ensures var u, id := Next(w, e), w.live[e.worker].payout;
      && (e.worker in u.live ==> PointFits(u.live[e.worker].point, u.payouts[id].status, u.transfers[id]))
      && u.transfers[id] <= 1 && u.payouts[id].status != Pending
  {
    var id := w.live[e.worker].payout;
    assert PointFits(w.live[e.worker].point, w.payouts[id].status, w.transfers[id]);
  }

  lemma WorkFitsRuns(w: World, e: Event)
    requires RunsFit(w) && CalledOnce(w) && e.Work? && Enabled(w, e)
    ensures RunsFit(Next(w, e)) && CalledOnce(Next(w, e))
  {
    WorkIsLocal(w, e);
    WorkFitsItself(w, e);
    var u := Next(w, e);
    assert forall v :: v in u.live && v != e.worker ==>
      v in u.live - {e.worker} && u.live[v] == (w.live - {e.worker})[v];
  }

  lemma WorkFitsDebits(w: World, e: Event)
    requires RunsFit(w) && DebitsFit(w) && e.Work? && Enabled(w, e)
    ensures DebitsFit(Next(w, e))
  {
    var u := Next(w, e);
    var id := w.live[e.worker].payout;
    forall k, other | 0 <= k < |u.ledger| && other in u.payouts && u.ledger[k].key == PayoutKey(other)
      ensures u.payouts[other].status == Completed
    {
      PayoutKeyFacts(other, id);
      if k == |w.ledger| { assert other == id; }
    }
    forall v, k | v in u.live && 0 <= k < |u.ledger|
      ensures u.ledger[k].key != PayoutKey(u.live[v].payout)
    {
      PayoutKeyFacts(u.live[v].payout, id);
      if k == |w.ledger| { assert u.live[v].payout == w.live[v].payout; }
    }
  }

  lemma WorkIsOrderly(w: World, e: Event)
    requires Orderly(w) && e.Work? && Enabled(w, e)
    ensures Orderly(Next(w, e))
  {
    StepIsBooked(w, e);
    WorkFitsRuns(w, e);
    WorkFitsDebits(w, e);
  }

  lemma OtherIsOrderly(w: World, e: Event)
    requires Orderly(w) && e.OtherRow? && Enabled(w, e)
    ensures Orderly(Next(w, e))
  {
    StepIsBooked(w, e);
    forall id: string
      ensures PayoutKey(id) != e.entry.key
    {
      PayoutKeyFacts(id, id);
    }
  }

  lemma StartIsOrderly(w: World, e: Event)
    requires Orderly(w) && (e.Start? || e.Crash?) && Enabled(w, e) && Admitted(w, e)
    ensures Orderly(Next(w, e))
  {
    StepIsBooked(w, e);
  }

  /** Main payout theorem: over every admitted run, with crashes anywhere, the bank
      is called at most once per payout, each PAYOUT row belongs to a completed
      payout, and failed payouts have none. */
  lemma {:induction false} AdmittedRunsAreOrderly(w: World, es: seq<Event>)
    requires Orderly(w) && CanRun(w, es) && AdmittedRun(w, es)
    ensures Orderly(Run(w, es))
    decreases |es|
  {
    if es != [] {
      StepIsOrderly(w, es[0]);
      AdmittedRunsAreOrderly(Next(w, es[0]), es[1..]);
    }
  }

  lemma StepIsOrderly(w: World, e: Event)
    requires Orderly(w) && Enabled(w, e) && Admitted(w, e)
    ensures Orderly(Next(w, e))
  {
    match e
    case Request(_, _, _) => RequestIsOrderly(w, e);
    case Work(_, _, _) => WorkIsOrderly(w, e);
    case OtherRow(_) => OtherIsOrderly(w, e);
    case Start(_, _) => StartIsOrderly(w, e);
    case Crash(_) => StartIsOrderly(w, e);
  }

  // ---- completed payouts and their debits ----

  /** No worker dies between completing a payout and appending its debit. */
  predicate SparesRecording(w: World, e: Event) {
    e.Crash? && e.worker in w.live ==> w.live[e.worker].point != Recording
  }

  predicate SparingRun(w: World, es: seq<Event>)
    requires CanRun(w, es)
    decreases |es|
  {
    es == [] || (SparesRecording(w, es[0]) && SparingRun(Next(w, es[0]), es[1..]))
  }

  predicate AtDebit(w: World, v: nat, id: string) { v in w.live && w.live[v] == Exec(id, Recording) }

  predicate Settling(w: World, id: string) { exists v :: v in w.live && AtDebit(w, v, id) }

  /** A completed payout with no debit and no run left to write it. */
  predicate Lacking(w: World, id: string) {
    id in w.payouts && w.payouts[id].status == Completed && !HasKey(w.ledger, PayoutKey(id)) && !Settling(w, id)
  }

  function Undebited(w: World): set<string> { set id | id in w.payouts && Lacking(w, id) }

  ghost predicate Debited(w: World) {
    forall id :: id in w.payouts && w.payouts[id].status == Completed ==>
      HasKey(w.ledger, PayoutKey(id)) || Settling(w, id)
  }

  function LostBy(w: World, e: Event): set<string> {
    if SparesRecording(w, e) then {} else {w.live[e.worker].payout}
  }

  /** The payouts whose run dies between completing them and appending the debit. */
  function LostIds(w: World, es: seq<Event>): set<string>
    requires CanRun(w, es)
    decreases |es|
  {
    if es == [] then {} else LostBy(w, es[0]) + LostIds(Next(w, es[0]), es[1..])
  }

  lemma RowStays(rows: seq<Entry>, more: seq<Entry>, key: string)
    requires rows <= more && HasKey(rows, key)
    ensures HasKey(more, key)
  {
    var k :| 0 <= k < |rows| && rows[k].key == key;
    assert more[k].key == key;
  }

  /** The payout whose run makes a step has its debit, or the run to write it. */
  lemma WorkedIsNotLacking(w: World, e: Event)
    requires Orderly(w) && Enabled(w, e) && e.Work?
    ensures !Lacking(w, w.live[e.worker].payout) && !Lacking(Next(w, e), w.live[e.worker].payout)
  {
    var u, id := Next(w, e), w.live[e.worker].payout;
    assert PointFits(w.live[e.worker].point, w.payouts[id].status, w.transfers[id]);
    if w.live[e.worker].point == Recording {
      assert u.ledger == w.ledger + [DebitEntry(w.payouts[id], id, e.at)];
      assert u.ledger[|w.ledger|].key == PayoutKey(id);
    } else if u.payouts[id].status == Completed {
      assert u.live[e.worker] == Exec(id, Recording);
    }
  }

  /** Any other payout keeps the debit it has or lacks. */
  lemma OthersKeepTheirRow(w: World, e: Event, id: string)
    requires Enabled(w, e) && (e.Work? ==> w.live[e.worker].payout != id)
    ensures HasKey(Next(w, e).ledger, PayoutKey(id)) <==> HasKey(w.ledger, PayoutKey(id))
  {
    var u := Next(w, e);
    PayoutKeyFacts(id, id);
    if HasKey(w.ledger, PayoutKey(id)) {
      RowStays(w.ledger, u.ledger, PayoutKey(id));
    } else if u.ledger != w.ledger {
      assert u.ledger == w.ledger + [u.ledger[|w.ledger|]];
      if e.Work? { PayoutKeyFacts(id, w.live[e.worker].payout); }
    }
  }

  lemma RunStaysExactlyWhen(w: World, e: Event, v: nat, id: string)
    requires Enabled(w, e) && (e.Work? ==> w.live[e.worker].payout != id)
    ensures AtDebit(Next(w, e), v, id) <==> AtDebit(w, v, id) && e != Crash(v)
  {}

  lemma OthersKeepTheirRun(w: World, e: Event, id: string)
    requires RunsFit(w) && Enabled(w, e) && (e.Work? ==> w.live[e.worker].payout != id)
    ensures Settling(Next(w, e), id) <==> Settling(w, id) && id !in LostBy(w, e)
  {
    forall v: nat
      ensures AtDebit(Next(w, e), v, id) <==> AtDebit(w, v, id) && e != Crash(v)
    {
      RunStaysExactlyWhen(w, e, v, id);
    }
  }

  lemma OthersAreLackingExactlyWhen(w: World, e: Event, id: string)
    requires Orderly(w) && Enabled(w, e) && (e.Work? ==> w.live[e.worker].payout != id)
    ensures Lacking(Next(w, e), id) <==> Lacking(w, id) || id in LostBy(w, e)
  {
    OthersKeepTheirRow(w, e, id);
    OthersKeepTheirRun(w, e, id);
    if id in LostBy(w, e) {
      assert PointFits(Recording, w.payouts[id].status, w.transfers[id]);
      assert !HasKey(w.ledger, PayoutKey(id));
    }
  }

  lemma StepLoses(w: World, e: Event)
    requires Orderly(w) && Enabled(w, e)
    ensures Undebited(Next(w, e)) == Undebited(w) + LostBy(w, e)
  {
    forall id: string
      ensures Lacking(Next(w, e), id) <==> Lacking(w, id) || id in LostBy(w, e)
    {
      if e.Work? && w.live[e.worker].payout == id {
        WorkedIsNotLacking(w, e);
      } else {
        OthersAreLackingExactlyWhen(w, e, id);
      }
    }
  }

  /** Over every admitted run, the completed payouts left without a debit are those
      there were and exactly those whose run died just before writing it. */
  lemma {:induction false} LostAreTheUndebited(w: World, es: seq<Event>)
    requires Orderly(w) && CanRun(w, es) && AdmittedRun(w, es)
    ensures Undebited(Run(w, es)) == Undebited(w) + LostIds(w, es)
    decreases |es|
  {
    if es != [] {
      StepLoses(w, es[0]);
      StepIsOrderly(w, es[0]);
      LostAreTheUndebited(Next(w, es[0]), es[1..]);
    }
  }

  lemma {:induction false} SparingRunsLoseNone(w: World, es: seq<Event>)
    requires CanRun(w, es) && SparingRun(w, es)
    ensures LostIds(w, es) == {}
    decreases |es|
  {
    if es != [] { SparingRunsLoseNone(Next(w, es[0]), es[1..]); }
  }

  lemma DebitedMeansNoneLacking(w: World)
    ensures Debited(w) <==> Undebited(w) == {}
  {
    if Undebited(w) == {} {
      forall id | id in w.payouts && w.payouts[id].status == Completed
        ensures HasKey(w.ledger, PayoutKey(id)) || Settling(w, id)
      {
        assert id !in Undebited(w);
      }
    }
  }

  /** So where no worker dies there, a completed payout has its debit, or its run is
      about to write it: with the theorem above, exactly the completed are debited. */
  lemma CompletedMeansDebited(w: World, es: seq<Event>)
    requires Orderly(w) && Debited(w) && CanRun(w, es) && AdmittedRun(w, es) && SparingRun(w, es)
    ensures Debited(Run(w, es))
  {
    LostAreTheUndebited(w, es);
    SparingRunsLoseNone(w, es);
    DebitedMeansNoneLacking(w);
    DebitedMeansNoneLacking(Run(w, es));
  }

  // ---- the debits against the completed payouts ----

  function AmountFor(p: PayoutRow, a: Account): int { if p.account == a then p.amount else 0 }

  /** The amounts of some payouts of an account. */
  ghost function AmountsOf(ids: set<string>, payouts: map<string, PayoutRow>, a: Account): int
    requires ids <= payouts.Keys
  {
    if ids == {} then 0
    else
      var id :| id in ids;
      AmountFor(payouts[id], a) + AmountsOf(ids - {id}, payouts, a)
  }

  /** In whatever order they are added up. */
  lemma {:induction false} AmountsWithout(ids: set<string>, payouts: map<string, PayoutRow>, a: Account, x: string)
    requires ids <= payouts.Keys && x in ids
    ensures AmountsOf(ids, payouts, a) == AmountFor(payouts[x], a) + AmountsOf(ids - {x}, payouts, a)
    decreases ids
  {
    var y :| y in ids && AmountsOf(ids, payouts, a) == AmountFor(payouts[y], a) + AmountsOf(ids - {y}, payouts, a);
    if y != x {
      AmountsWithout(ids - {y}, payouts, a, x);
      AmountsWithout(ids - {x}, payouts, a, y);
      assert ids - {y} - {x} == ids - {x} - {y};
    }
  }

  function DebitedIds(rows: seq<Entry>, payouts: map<string, PayoutRow>): set<string> {
    set id | id in payouts && HasKey(rows, PayoutKey(id))
  }

  function CompletedIds(payouts: map<string, PayoutRow>): set<string> {
    set id | id in payouts && payouts[id].status == Completed
  }

  lemma OneMoreDebit(w: World, k: nat, id: string)
    requires Booked(w) && k < |w.ledger| && DebitOfPayout(w.payouts, w.ledger[k], id)
    ensures id !in DebitedIds(w.ledger[..k], w.payouts)
    ensures DebitedIds(w.ledger[..k + 1], w.payouts) == DebitedIds(w.ledger[..k], w.payouts) + {id}
  {
    var before, rows := w.ledger[..k], w.ledger[..k + 1];
    assert rows == before + [w.ledger[k]] && rows[k].key == PayoutKey(id);
    forall x | x in w.payouts
      ensures HasKey(rows, PayoutKey(x)) <==> HasKey(before, PayoutKey(x)) || x == id
    {
      PayoutKeyFacts(x, id);
      if HasKey(before, PayoutKey(x)) { RowStays(before, rows, PayoutKey(x)); }
    }
  }

  lemma NoMoreDebit(w: World, k: nat)
    requires Booked(w) && k < |w.ledger| && w.ledger[k].kind != Kind.Payout
    ensures DebitedIds(w.ledger[..k + 1], w.payouts) == DebitedIds(w.ledger[..k], w.payouts)
  {
    var before, rows := w.ledger[..k], w.ledger[..k + 1];
    assert rows == before + [w.ledger[k]];
    forall x | x in w.payouts
      ensures HasKey(rows, PayoutKey(x)) <==> HasKey(before, PayoutKey(x))
    {
      PayoutKeyFacts(x, x);
      if HasKey(before, PayoutKey(x)) { RowStays(before, rows, PayoutKey(x)); }
    }
  }

  lemma {:induction false} DebitsAddUp(w: World, a: Account, k: nat)
    requires Booked(w) && k <= |w.ledger|
    ensures Total(w.ledger[..k], DebitsOf(a)) == AmountsOf(DebitedIds(w.ledger[..k], w.payouts), w.payouts, a)
    decreases k
  {
    if k > 0 {
      var row := w.ledger[k - 1];
      DebitsAddUp(w, a, k - 1);
      assert w.ledger[..k][..k - 1] == w.ledger[..k - 1];
      if row.kind == Kind.Payout {
        var id :| DebitOfPayout(w.payouts, row, id);
        OneMoreDebit(w, k - 1, id);
        AmountsWithout(DebitedIds(w.ledger[..k], w.payouts), w.payouts, a, id);
        assert DebitedIds(w.ledger[..k], w.payouts) - {id} == DebitedIds(w.ledger[..k - 1], w.payouts);
      } else {
        NoMoreDebit(w, k - 1);
      }
    }
  }

  lemma {:induction false} AmountsOfBoth(ids: set<string>, more: set<string>, payouts: map<string, PayoutRow>,
                                         a: Account)
    requires ids + more <= payouts.Keys && ids !! more
    ensures AmountsOf(ids + more, payouts, a) == AmountsOf(ids, payouts, a) + AmountsOf(more, payouts, a)
    decreases more
  {
    if more == {} {
      assert ids + more == ids;
    } else {
      var x :| x in more;
      AmountsWithout(more, payouts, a, x);
      AmountsWithout(ids + more, payouts, a, x);
      assert ids + more - {x} == ids + (more - {x});
      AmountsOfBoth(ids, more - {x}, payouts, a);
    }
  }

  lemma CompletedSplit(w: World)
    requires Orderly(w) && w.live == map[]
    ensures CompletedIds(w.payouts) == DebitedIds(w.ledger, w.payouts) + Undebited(w)
    ensures DebitedIds(w.ledger, w.payouts) !! Undebited(w)
  {
    forall id | id in w.payouts && HasKey(w.ledger, PayoutKey(id))
      ensures w.payouts[id].status == Completed
    {
      var k :| 0 <= k < |w.ledger| && w.ledger[k].key == PayoutKey(id);
    }
  }

  /** Main balance result: after any admitted run, with crashes anywhere, once no run is
      in progress, the PAYOUT rows of an account fall short of the amounts of its
      completed payouts by exactly the amounts of those lost, before or in the run. */
  lemma DebitsFallShortByTheLost(w: World, es: seq<Event>, a: Account)
    requires Orderly(w) && CanRun(w, es) && AdmittedRun(w, es) && Run(w, es).live == map[]
    ensures var t := Run(w, es);
      && Undebited(w) + LostIds(w, es) <= t.payouts.Keys
      && AmountsOf(CompletedIds(t.payouts), t.payouts, a) - Total(t.ledger, DebitsOf(a))
         == AmountsOf(Undebited(w) + LostIds(w, es), t.payouts, a)
  {
    var t := Run(w, es);
    AdmittedRunsAreOrderly(w, es);
    LostAreTheUndebited(w, es);
    CompletedSplit(t);
    DebitsAddUp(t, a, |t.ledger|);
    assert t.ledger[..|t.ledger|] == t.ledger;
    AmountsOfBoth(DebitedIds(t.ledger, t.payouts), Undebited(t), t.payouts, a);
  }

  /** Without such a death the two are equal. */
  lemma DebitsAreTheCompletedPayouts(w: World, es: seq<Event>, a: Account)
    requires Orderly(w) && Debited(w) && CanRun(w, es) && AdmittedRun(w, es) && SparingRun(w, es)
    requires Run(w, es).live == map[]
    ensures var t := Run(w, es);
      Total(t.ledger, DebitsOf(a)) == AmountsOf(CompletedIds(t.payouts), t.payouts, a)
  {
    DebitsFallShortByTheLost(w, es, a);
    SparingRunsLoseNone(w, es);
    DebitedMeansNoneLacking(w);
  }

  // ---- without the admission rule ----

  predicate BothSawPending(w: World, u: nat, v: nat, id: string) {
    && u != v && u in w.live && v in w.live
    && w.live[u] == Exec(id, SawPending) && w.live[v] == Exec(id, SawPending)
    && id in w.payouts && w.payouts[id].account.mode != "test"
  }

  /** A start that breaks the rule leaves two runs that have both read the row. */
  lemma BrokenRuleMeansTwoReaders(w: World, u: nat, v: nat, id: string)
    requires Enabled(w, Start(v, id)) && id in w.payouts && w.payouts[id].account.mode != "test"
    requires w.payouts[id].status == Pending && u in w.live && w.live[u] == Exec(id, SawPending)
    ensures !Admitted(w, Start(v, id)) && BothSawPending(Next(w, Start(v, id)), u, v, id)
  {}

  lemma {:induction false} RunsChain(w: World, es: seq<Event>, more: seq<Event>)
    requires CanRun(w, es) && CanRun(Run(w, es), more)
    ensures CanRun(w, es + more) && Run(w, es + more) == Run(Run(w, es), more)
    decreases |es|
  {
    if es == [] {
      assert es + more == more;
    } else {
      RunsChain(Next(w, es[0]), es[1..], more);
      assert (es + more)[1..] == es[1..] + more;
    }
  }

  lemma RunOne(w: World, e: Event)
    requires Enabled(w, e)
    ensures CanRun(w, [e]) && Run(w, [e]) == Next(w, e)
  {
    assert [e][1..] == [];
  }

  predicate Both(w: World, u: nat, v: nat, id: string, p: Point, q: Point) {
    u != v && u in w.live && v in w.live && w.live[u] == Exec(id, p) && w.live[v] == Exec(id, q) && id in w.payouts
  }

  lemma BothMark(w: World, u: nat, v: nat, id: string, at: Stamp) returns (es: seq<Event>)
    requires BothSawPending(w, u, v, id)
    ensures CanRun(w, es)
    ensures var x := Run(w, es);
      && Both(x, u, v, id, Marked, Marked) && x.transfers == w.transfers && x.ledger == w.ledger
      && x.payouts[id].account == w.payouts[id].account && x.payouts[id].amount == w.payouts[id].amount
  {
    var first, second := Work(u, true, at), Work(v, true, at);
    RunOne(w, first);
    RunOne(Next(w, first), second);
    RunsChain(w, [first], [second]);
    es := [first] + [second];
  }

  lemma BothCall(w: World, u: nat, v: nat, id: string, at: Stamp) returns (es: seq<Event>)
    requires Both(w, u, v, id, Marked, Marked) && w.payouts[id].account.mode != "test"
    ensures CanRun(w, es)
    ensures var x := Run(w, es);
      && Both(x, u, v, id, Transferred, Refused) && x.ledger == w.ledger
      && x.transfers[id] == w.transfers[id] + 2 && x.payouts == w.payouts
  {
    var first, second := Work(u, true, at), Work(v, false, at);
    RunOne(w, first);
    RunOne(Next(w, first), second);
    RunsChain(w, [first], [second]);
    es := [first] + [second];
  }

  lemma BothSettle(w: World, u: nat, v: nat, id: string, at: Stamp) returns (es: seq<Event>)
    requires Both(w, u, v, id, Transferred, Refused) && !HasKey(w.ledger, PayoutKey(id)) && w.payouts[id].amount > 0
    ensures CanRun(w, es)
    ensures var x := Run(w, es);
      && x.transfers == w.transfers && HasKey(x.ledger, PayoutKey(id))
      && id in x.payouts && x.payouts[id].status == Failed
  {
    var complete, fail := Work(u, true, at), Work(v, false, at);
    var w1 := Next(w, complete);
    var w2 := Next(w1, complete);
    RunOne(w, complete);
    RunOne(w1, complete);
    RunOne(w2, fail);
    RunsChain(w, [complete], [complete]);
    RunsChain(w, [complete] + [complete], [fail]);
    assert w2.ledger[|w.ledger|].key == PayoutKey(id);
    es := [complete] + [complete] + [fail];
  }

  /** The rule is needed: from any such state both runs reach the bank; and when the
      second answer is a refusal, the payout ends failed with a debit in the ledger. */
  lemma TwoReadersTransferTwice(w: World, u: nat, v: nat, id: string, at: Stamp)
    requires BothSawPending(w, u, v, id) && !HasKey(w.ledger, PayoutKey(id)) && w.payouts[id].amount > 0
    ensures exists es :: CanRun(w, es) && TwiceAndFailed(Run(w, es), id, w.transfers[id])
  {
    var mark := BothMark(w, u, v, id, at);
    var marked := Run(w, mark);
    var call := BothCall(marked, u, v, id, at);
    var called := Run(marked, call);
    var settle := BothSettle(called, u, v, id, at);
    RunsChain(w, mark, call);
    RunsChain(w, mark + call, settle);
  }

  predicate TwiceAndFailed(w: World, id: string, before: nat) {
    && w.transfers[id] == before + 2
    && id in w.payouts && w.payouts[id].status == Failed
    && HasKey(w.ledger, PayoutKey(id))
  }
}
