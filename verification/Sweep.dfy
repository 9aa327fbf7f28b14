/** CheckAbandonedCheckouts over a tenant's subscriptions: each row found abandoned is
    moved to PAST_DUE and then gets a retry job three days on.  The process may die
    between any two of these writes. */
module Sweep {
  import opened Calendar
  import opened Dunning
  import opened Handlers
  import opened JobQueue
  import opened Prelude
  import Subs = Subscriptions

  type Rows = map<string, Subs.Row>

  /** One subscription of the listing, by id, with what the row type leaves out. */
  datatype Listed = Listed(id: string, createdAt: int, seeded: bool)

  /** The listing is one page a mode; further subscriptions are not looked at. */
  const LIST_LIMIT := 1000

  function Page(live: seq<Listed>, test: seq<Listed>): seq<Listed> {
    live[..Min(LIST_LIMIT, |live|)] + test[..Min(LIST_LIMIT, |test|)]
  }

  predicate Known(rows: Rows, page: seq<Listed>) { forall i :: 0 <= i < |page| ==> page[i].id in rows }

  predicate DistinctIds(page: seq<Listed>) { forall i, j :: 0 <= i < j < |page| ==> page[i].id != page[j].id }

  predicate Due(rows: Rows, l: Listed, now: Subs.Time) {
    l.id in rows && Abandoned(rows[l.id], l.createdAt, l.seeded, now)
  }

  /** The due subscriptions of the page, in listing order. */
  function DueOf(rows: Rows, page: seq<Listed>, now: Subs.Time): seq<Listed> {
    if page == [] then []
    else
      var l := page[|page| - 1];
      DueOf(rows, page[..|page| - 1], now) + if Due(rows, l, now) then [l] else []
  }

  function ToPastDue(r: Subs.Row): Subs.Row { Subs.Written(r, Subs.SetStatus(Subs.PastDue), true) }

  /** The rows after some of them are moved. */
  function Moved(rows: Rows, ls: seq<Listed>): Rows
    requires Known(rows, ls)
    ensures Moved(rows, ls).Keys == rows.Keys
  {
    if ls == [] then rows
    else
      var l := ls[|ls| - 1];
      Moved(rows, ls[..|ls| - 1])[l.id := ToPastDue(rows[l.id])]
  }

  function RetryJob(id: string, now: Subs.Time): JobQueue.Job { NewJob(Instant(AddDate(now, 0, 3)), 3, Some(id)) }

  function JobsOf(ls: seq<Listed>, now: Subs.Time): (jobs: Table)
    ensures |jobs| == |ls|
  {
    seq(|ls|, i requires 0 <= i < |ls| => RetryJob(ls[i].id, now))
  }

  /** How many due rows a sweep moves, and enqueues a job for, in its first `fuel`
      writes. */
  function MovedCount(due: seq<Listed>, fuel: nat): nat { Min(|due|, (fuel + 1) / 2) }

  function QueuedCount(due: seq<Listed>, fuel: nat): nat { Min(|due|, fuel / 2) }

  class Sweeper {
    var rows: Rows
    var jobs: Table
    var fuel: nat

    static method IsAbandoned(sub: Subs.Row, l: Listed, now: Subs.Time) returns (due: bool)
      ensures due == Abandoned(sub, l.createdAt, l.seeded, now)
    {
      if l.seeded || sub.token != "" { return false; }
      var cutoff;
      match sub.status {
        case PendingPayment => cutoff := Instant(now) - HOUR;
        case Trialing => cutoff := Instant(now) - 24 * HOUR;
        case _ => return false;
      }
      due := l.createdAt <= cutoff;
    }

    method UpdateStatus(id: string, moved: Subs.Row)
      modifies this`rows, this`fuel
      ensures rows == if old(fuel) == 0 then old(rows) else old(rows)[id := moved]
      ensures fuel == if old(fuel) == 0 then 0 else old(fuel) - 1
    {
      if fuel > 0 { rows, fuel := rows[id := moved], fuel - 1; }
    }

    method Enqueue(job: JobQueue.Job)
      modifies this`jobs, this`fuel
      ensures jobs == if old(fuel) == 0 then old(jobs) else old(jobs) + [job]
      ensures fuel == if old(fuel) == 0 then 0 else old(fuel) - 1
    {
      if fuel > 0 { jobs, fuel := jobs + [job], fuel - 1; }
    }

    /** The two writes for one due row. */
    method MoveAndEnqueue(l: Listed, loaded: Rows, now: Subs.Time)
      requires l.id in loaded
      modifies this
      ensures Progress(rows, jobs, fuel) == MoveAndQueue(old(Progress(rows, jobs, fuel)), l, loaded, now)
    {
      UpdateStatus(l.id, ToPastDue(loaded[l.id]));
      Enqueue(NewJob(Instant(AddDate(now, 0, 3)), 3, Some(l.id)));
    }

    /** The loop over the listing. */
    method SweepPage(page: seq<Listed>, now: Subs.Time)
      requires Known(rows, page)
      modifies this
      ensures Swept(Progress(rows, jobs, fuel), old(Progress(rows, jobs, fuel)), DueOf(old(rows), page, now), now)
    {
      var loaded := rows;
      ghost var start := Progress(rows, jobs, fuel);
      for i := 0 to |page|
        invariant Swept(Progress(rows, jobs, fuel), start, DueOf(loaded, page[..i], now), now)
      {
        var l := page[i];
        NextOfPage(start, page, i, now, Progress(rows, jobs, fuel));
        var due := IsAbandoned(loaded[l.id], l, now);
        if due { MoveAndEnqueue(l, loaded, now); }
      }
      assert page[..|page|] == page;
    }

    /** Whatever number of writes the process lives for, the moved rows and the jobs are
        those of the first due rows, and at most one moved row is without its job. */
    method CheckAbandonedCheckouts(live: seq<Listed>, test: seq<Listed>, now: Subs.Time)
      requires Known(rows, Page(live, test))
      modifies this
      ensures Known(old(rows), DueOf(old(rows), Page(live, test), now))
      ensures var due := DueOf(old(rows), Page(live, test), now);
        && rows == Moved(old(rows), due[..MovedCount(due, old(fuel))])
        && jobs == old(jobs) + JobsOf(due[..QueuedCount(due, old(fuel))], now)
    {
      SweepPage(live[..Min(LIST_LIMIT, |live|)] + test[..Min(LIST_LIMIT, |test|)], now);
    }
  }

  datatype Progress = Progress(rows: Rows, jobs: Table, fuel: nat)

  /** The two writes for one due row, each made only while the process lives. */
  function MoveAndQueue(s: Progress, l: Listed, loaded: Rows, now: Subs.Time): Progress
    requires l.id in loaded
  {
    Progress(if s.fuel >= 1 then s.rows[l.id := ToPastDue(loaded[l.id])] else s.rows,
          if s.fuel >= 2 then s.jobs + [RetryJob(l.id, now)] else s.jobs,
          Max(0, s.fuel - 2))
  }

  /** The state of a sweep begun in `start` that has met the due rows `due`. */
  ghost predicate Swept(s: Progress, start: Progress, due: seq<Listed>, now: Subs.Time) {
    && Known(start.rows, due)
    && s.rows == Moved(start.rows, due[..MovedCount(due, start.fuel)])
    && s.jobs == start.jobs + JobsOf(due[..QueuedCount(due, start.fuel)], now)
    && s.fuel == Max(0, start.fuel - 2 * |due|)
  }

  lemma OneMoreMoved(rows: Rows, due: seq<Listed>, l: Listed, lives: nat)
    requires Known(rows, due) && l.id in rows
    ensures Known(rows, due + [l])
    ensures Moved(rows, (due + [l])[..MovedCount(due + [l], lives)])
            == var was := Moved(rows, due[..MovedCount(due, lives)]);
               if lives > 2 * |due| then was[l.id := ToPastDue(rows[l.id])] else was
  {
    var more, m := due + [l], MovedCount(due, lives);
    assert more[..m] == due[..m];
    if lives > 2 * |due| { assert more[..m + 1][..m] == due[..m] && more[..m + 1][m] == l; }
  }

  lemma OneMoreQueued(due: seq<Listed>, l: Listed, now: Subs.Time, lives: nat)
    ensures JobsOf((due + [l])[..QueuedCount(due + [l], lives)], now)
            == JobsOf(due[..QueuedCount(due, lives)], now)
               + if lives > 2 * |due| + 1 then [RetryJob(l.id, now)] else []
  {
    var more, q := due + [l], QueuedCount(due, lives);
    assert more[..q] == due[..q];
    if lives > 2 * |due| + 1 { assert more[..q + 1][..q] == due[..q] && more[..q + 1][q] == l; }
  }

  lemma OneMoreDue(s: Progress, start: Progress, due: seq<Listed>, l: Listed, now: Subs.Time)
    requires Swept(s, start, due, now) && l.id in start.rows
    ensures Swept(MoveAndQueue(s, l, start.rows, now), start, due + [l], now)
  {
    OneMoreMoved(start.rows, due, l, start.fuel);
    OneMoreQueued(due, l, now, start.fuel);
  }

  lemma NextOfPage(start: Progress, page: seq<Listed>, i: nat, now: Subs.Time, s: Progress)
    requires i < |page| && Known(start.rows, page)
    requires Swept(s, start, DueOf(start.rows, page[..i], now), now)
    ensures var l := page[i];
      Swept(if Due(start.rows, l, now) then MoveAndQueue(s, l, start.rows, now) else s, start,
            DueOf(start.rows, page[..i + 1], now), now)
  {
    var due := DueOf(start.rows, page[..i], now);
    assert page[..i + 1][..i] == page[..i];
    if Due(start.rows, page[i], now) { OneMoreDue(s, start, due, page[i], now); }
    assert due + [] == due;
  }

  // ------------------------------------------------------------------
  // What a sweep leaves
  // ------------------------------------------------------------------

  predicate Among(ls: seq<Listed>, id: string) { exists i :: 0 <= i < |ls| && ls[i].id == id }

  lemma {:induction false} DueIs(rows: Rows, page: seq<Listed>, now: Subs.Time, l: Listed)
    ensures l in DueOf(rows, page, now) <==> l in page && Due(rows, l, now)
  {
    if page != [] {
      var n := |page| - 1;
      DueIs(rows, page[..n], now, l);
      assert l in page <==> l in page[..n] || l == page[n];
    }
  }

  lemma DueAreOfThePage(rows: Rows, page: seq<Listed>, now: Subs.Time)
    ensures forall l :: l in DueOf(rows, page, now) <==> l in page && Due(rows, l, now)
  {
    forall l: Listed
      ensures l in DueOf(rows, page, now) <==> l in page && Due(rows, l, now)
    {
      DueIs(rows, page, now, l);
    }
  }

  lemma {:induction false} DueAreDistinct(rows: Rows, page: seq<Listed>, now: Subs.Time)
    requires DistinctIds(page)
    ensures DistinctIds(DueOf(rows, page, now))
  {
    if page != [] {
      var n := |page| - 1;
      var front := DueOf(rows, page[..n], now);
      DueAreDistinct(rows, page[..n], now);
      DueAreOfThePage(rows, page[..n], now);
      forall i | 0 <= i < |front|
        ensures front[i].id != page[n].id
      {
        assert front[i] in page[..n];
        var k :| 0 <= k < n && page[..n][k] == front[i];
        assert page[k].id != page[n].id;
      }
    }
  }

  lemma DueAre(rows: Rows, page: seq<Listed>, now: Subs.Time)
    requires DistinctIds(page)
    ensures var due := DueOf(rows, page, now);
      && DistinctIds(due) && Known(rows, due)
      && (forall i :: 0 <= i < |due| ==> due[i] in page && Due(rows, due[i], now))
      && (forall i :: 0 <= i < |page| && Due(rows, page[i], now) ==> page[i] in due)
  {
    DueAreOfThePage(rows, page, now);
    DueAreDistinct(rows, page, now);
  }

  /** Exactly the listed rows are moved, each once. */
  lemma {:induction false} MovedAre(rows: Rows, ls: seq<Listed>, id: string)
    requires DistinctIds(ls) && Known(rows, ls) && id in rows
    ensures Moved(rows, ls)[id] == if Among(ls, id) then ToPastDue(rows[id]) else rows[id]
  {
    if ls != [] {
      var n := |ls| - 1;
      MovedAre(rows, ls[..n], id);
      if Among(ls[..n], id) {
        var i :| 0 <= i < n && ls[..n][i].id == id;
        assert ls[i].id == id;
      }
    }
  }

  function JobsFor(jobs: Table, id: string): nat {
    if jobs == [] then 0
    else JobsFor(jobs[..|jobs| - 1], id) + if jobs[|jobs| - 1].subscription == Some(id) then 1 else 0
  }

  /** One job for each of the listed, and for no other. */
  lemma {:induction false} JobsAreOneEach(ls: seq<Listed>, now: Subs.Time, id: string)
    requires DistinctIds(ls)
    ensures JobsFor(JobsOf(ls, now), id) == if Among(ls, id) then 1 else 0
  {
    if ls != [] {
      var n := |ls| - 1;
      JobsAreOneEach(ls[..n], now, id);
      assert JobsOf(ls, now)[..n] == JobsOf(ls[..n], now);
      if Among(ls[..n], id) {
        var i :| 0 <= i < n && ls[..n][i].id == id;
        assert ls[i].id == id;
      }
    }
  }

  /** The job of a moved row is due from three days on, for three attempts. */
  lemma RetryJobIsDue(id: string, now: Subs.Time, used: nat, later: int)
    ensures Eligible(RetryJob(id, now).(attempts := used), later) <==>
      later >= Instant(now) + 3 * 24 * 60 * 60 * 1_000_000_000 && used < 3
  {}

  /** One of the first thousand. */
  predicate InFront(ls: seq<Listed>, l: Listed) { exists i :: 0 <= i < |ls| && i < 1000 && ls[i] == l }

  lemma OnPage(live: seq<Listed>, test: seq<Listed>, l: Listed)
    ensures l in Page(live, test) <==> InFront(live, l) || InFront(test, l)
  {
    var page, n := Page(live, test), Min(LIST_LIMIT, |live|);
    if InFront(live, l) {
      var i :| 0 <= i < |live| && i < 1000 && live[i] == l;
      assert page[i] == l;
    }
    if InFront(test, l) {
      var i :| 0 <= i < |test| && i < 1000 && test[i] == l;
      assert page[n + i] == l;
    }
    if l in page {
      var k :| 0 <= k < |page| && page[k] == l;
      assert if k < n then live[k] == l else test[k - n] == l;
    }
  }

  /** A sweep finds due exactly the abandoned among the first thousand subscriptions of
      each mode. */
  lemma DueAreTheFirstThousands(rows: Rows, live: seq<Listed>, test: seq<Listed>, now: Subs.Time, l: Listed)
    requires DistinctIds(Page(live, test))
    ensures l in DueOf(rows, Page(live, test), now) <==>
      (InFront(live, l) || InFront(test, l)) && l.id in rows && Abandoned(rows[l.id], l.createdAt, l.seeded, now)
  {
    var page := Page(live, test);
    DueAre(rows, page, now);
    OnPage(live, test, l);
    if l in page {
      var k :| 0 <= k < |page| && page[k] == l;
      if Due(rows, l, now) { assert Due(rows, page[k], now); }
    }
  }

  lemma AmongPrefix(ls: seq<Listed>, k: nat, i: nat)
    requires DistinctIds(ls) && k <= |ls| && i < |ls|
    ensures Among(ls[..k], ls[i].id) <==> i < k
  {
    if i < k { assert ls[..k][i].id == ls[i].id; }
  }

  /** To a row the sweep does what the job on that row alone does: the status becomes
      PAST_DUE and nothing else changes. */
  lemma MovedAsByTheJob(s: Handlers.State, env: Env, createdAt: int, seeded: bool)
    requires Abandoned(s.row, createdAt, seeded, env.now) && s.fuel >= 1
    ensures ToPastDue(s.row) == RunOf(CheckAbandonedCheckouts(createdAt, seeded), s, s.row, env).row
    ensures ToPastDue(s.row) == s.row.(status := Subs.PastDue, version := s.row.version + 1)
  {}

  /** After a sweep that died after any number of writes, or lived through, the i-th due
      subscription is moved exactly when the first i + 1 status writes were reached,
      has exactly one job exactly when as many enqueues were, due three days on, and
      no other row or job is touched. */
  lemma SweepLeaves(rows: Rows, page: seq<Listed>, now: Subs.Time, fuel: nat, i: nat)
    requires DistinctIds(page) && i < |DueOf(rows, page, now)|
    ensures var due := DueOf(rows, page, now);
      && DistinctIds(due) && Known(rows, due)
      && Moved(rows, due[..MovedCount(due, fuel)])[due[i].id]
         == (if fuel >= 2 * i + 1 then ToPastDue(rows[due[i].id]) else rows[due[i].id])
      && JobsFor(JobsOf(due[..QueuedCount(due, fuel)], now), due[i].id) == (if fuel >= 2 * i + 2 then 1 else 0)
      && RetryJob(due[i].id, now).scheduledAt == Instant(now) + 3 * NANOS_PER_DAY
  {
    var due := DueOf(rows, page, now);
    DueAre(rows, page, now);
    MovedAre(rows, due[..MovedCount(due, fuel)], due[i].id);
    JobsAreOneEach(due[..QueuedCount(due, fuel)], now, due[i].id);
    AmongPrefix(due, MovedCount(due, fuel), i);
    AmongPrefix(due, QueuedCount(due, fuel), i);
  }

  lemma SweepSparesOthers(rows: Rows, page: seq<Listed>, now: Subs.Time, fuel: nat, id: string)
    requires DistinctIds(page) && id in rows && !Among(DueOf(rows, page, now), id)
    ensures var due := DueOf(rows, page, now);
      && Known(rows, due)
      && Moved(rows, due[..MovedCount(due, fuel)])[id] == rows[id]
      && JobsFor(JobsOf(due[..QueuedCount(due, fuel)], now), id) == 0
  {
    var due := DueOf(rows, page, now);
    DueAre(rows, page, now);
    MovedAre(rows, due[..MovedCount(due, fuel)], id);
    JobsAreOneEach(due[..QueuedCount(due, fuel)], now, id);
  }

  /** All moved rows but possibly the last have their job; the last lacks it exactly
      when the process died between its two writes. */
  lemma MovedWithoutAJobExactlyWhen(due: seq<Listed>, fuel: nat)
    ensures QueuedCount(due, fuel) <= MovedCount(due, fuel) <= QueuedCount(due, fuel) + 1
    ensures MovedCount(due, fuel) == QueuedCount(due, fuel) + 1 <==> fuel % 2 == 1 && fuel < 2 * |due|
  {}

  /** A row once moved is not due again, so no sweep at any later time makes a job for
      it: the one such a death leaves behind gets none. */
  lemma MovedRowsAreNotDue(rows: Rows, ls: seq<Listed>, l: Listed, later: Subs.Time)
    requires DistinctIds(ls) && Known(rows, ls) && Among(ls, l.id)
    ensures l.id in rows && !Due(Moved(rows, ls), l, later)
  {
    assert l.id in rows by {
      var i :| 0 <= i < |ls| && ls[i].id == l.id;
    }
    MovedAre(rows, ls, l.id);
  }

  lemma LastMovedIsNotDue(rows: Rows, due: seq<Listed>, i: nat, later: Subs.Time)
    requires DistinctIds(due) && Known(rows, due) && i < |due|
    ensures !Due(Moved(rows, due[..MovedCount(due, 2 * i + 1)]), due[i], later)
  {
    assert MovedCount(due, 2 * i + 1) == i + 1;
    AmongPrefix(due, i + 1, i);
    MovedRowsAreNotDue(rows, due[..i + 1], due[i], later);
  }

  /** In whole: a subscription whose move was the last write of a dead sweep is PAST_DUE,
      has no job from it, and is not due to any later sweep. */
  lemma DeathLosesAJob(rows: Rows, page: seq<Listed>, now: Subs.Time, i: nat, later: Subs.Time)
    requires DistinctIds(page) && i < |DueOf(rows, page, now)|
    ensures Known(rows, DueOf(rows, page, now))
    ensures var due := DueOf(rows, page, now);
      var left := Moved(rows, due[..MovedCount(due, 2 * i + 1)]);
      && left[due[i].id] == ToPastDue(rows[due[i].id])
      && JobsFor(JobsOf(due[..QueuedCount(due, 2 * i + 1)], now), due[i].id) == 0
      && !Due(left, due[i], later)
  {
    SweepLeaves(rows, page, now, 2 * i + 1, i);
    LastMovedIsNotDue(rows, DueOf(rows, page, now), i, later);
  }
}
