/** The job table and its statements, each one atomic.  A job's id is its row
    number; times are integers on one database clock. */
module JobQueue {
  import opened Prelude

  /** INTERVAL '10 minutes', in nanoseconds. */
  const STALE: int := 600_000_000_000

  datatype Status = Pending | Processing | Done | Failed | Cancelled

  datatype Job = Job(status: Status, scheduledAt: int, lockedAt: Option<int>, lockedBy: Option<nat>,
                     attempts: int, maxAttempts: int, subscription: Option<string>)

  type Table = seq<Job>

  // ---- the statements ----

  function NewJob(scheduledAt: int, maxAttempts: int, subscription: Option<string>): Job {
    Job(Pending, scheduledAt, None, None, 0, maxAttempts, subscription)
  }

  predicate Eligible(j: Job, now: int) {
    j.status == Pending && j.scheduledAt <= now && j.attempts < j.maxAttempts
  }

  /** Row `id` is what ORDER BY scheduled_at ... SKIP LOCKED LIMIT 1 may return:
      eligible, not locked by a concurrent claim, and no other such row is earlier. */
  predicate Claimable(t: Table, now: int, locked: set<nat>, id: nat) {
    && id < |t| && id !in locked && Eligible(t[id], now)
    && forall k: nat :: k < |t| && k !in locked && Eligible(t[k], now) ==> t[id].scheduledAt <= t[k].scheduledAt
  }

  function Claimed(t: Table, id: nat, worker: nat, now: int): Table
    requires id < |t|
  {
    t[id := t[id].(status := Processing, lockedAt := Some(now), lockedBy := Some(worker),
                   attempts := t[id].attempts + 1)]
  }

  datatype Outcome = MarkDone | MarkFailed | Requeue(at: int)

  /** MarkJobDone, MarkJobFailed and RequeueJob: by id, whatever the status. */
  function Finished(t: Table, id: nat, outcome: Outcome): Table
    requires id < |t|
  {
    match outcome
    case MarkDone => t[id := t[id].(status := Done)]
    case MarkFailed => t[id := t[id].(status := Failed)]
    case Requeue(at) => t[id := t[id].(status := Pending, scheduledAt := at, lockedAt := None, lockedBy := None)]
  }

  predicate Stale(j: Job, now: int) {
    j.status == Processing && j.lockedAt.Some? && j.lockedAt.value < now - STALE
  }

  function Unlocked(j: Job, now: int): Job {
    if Stale(j, now) then j.(status := Pending, lockedAt := None, lockedBy := None) else j
  }

  function Recovered(t: Table, now: int): Table { seq(|t|, i requires 0 <= i < |t| => Unlocked(t[i], now)) }

  /** RetryJob: by id, whatever the status; the lock columns stay. */
  function Retried(t: Table, id: nat, now: int): Table
    requires id < |t|
  {
    t[id := t[id].(status := Pending, attempts := 0, scheduledAt := now)]
  }

  function CancelledFor(j: Job, sub: string): Job {
    if j.status == Pending && j.subscription == Some(sub) then j.(status := Cancelled) else j
  }

  function WithoutPending(t: Table, sub: string): Table {
    seq(|t|, i requires 0 <= i < |t| => CancelledFor(t[i], sub))
  }

  /** The table as the worker process drives it. */
  class Queue {
    var jobs: Table

    constructor ()
      ensures jobs == []
    {
      jobs := [];
    }

    method Enqueue(scheduledAt: int, maxAttempts: int, subscription: Option<string>) returns (id: nat)
      modifies this
      ensures id == old(|jobs|) && jobs == old(jobs) + [NewJob(scheduledAt, maxAttempts, subscription)]
    {
      id := |jobs|;
      jobs := jobs + [NewJob(scheduledAt, maxAttempts, subscription)];
    }

    /** Claims an earliest eligible row, or none exactly when there is none. */
    method ClaimNext(worker: nat, now: int, locked: set<nat>) returns (id: Option<nat>)
      modifies this
      ensures id.Some? ==>
        Claimable(old(jobs), now, locked, id.value) && jobs == Claimed(old(jobs), id.value, worker, now)
      ensures id.None? ==> jobs == old(jobs) && forall k: nat :: k < |jobs| && k !in locked ==> !Eligible(jobs[k], now)
    {
      id := None;
      for i := 0 to |jobs|
        invariant jobs == old(jobs)
        invariant id.Some? ==> id.value < i && id.value !in locked && Eligible(jobs[id.value], now)
        invariant forall k: nat :: k < i && k !in locked && Eligible(jobs[k], now) ==>
          id.Some? && jobs[id.value].scheduledAt <= jobs[k].scheduledAt
      {
        if i !in locked && Eligible(jobs[i], now) && (id.None? || jobs[i].scheduledAt < jobs[id.value].scheduledAt) {
          id := Some(i);
        }
      }
      if id.Some? {
        var j := jobs[id.value];
        jobs := jobs[id.value := j.(status := Processing, lockedAt := Some(now), lockedBy := Some(worker),
                                    attempts := j.attempts + 1)];
      }
    }

    method Finish(id: nat, outcome: Outcome)
      modifies this
      ensures jobs == if id < old(|jobs|) then Finished(old(jobs), id, outcome) else old(jobs)
    {
      if id >= |jobs| { return; }
      match outcome
      case MarkDone => jobs := jobs[id := jobs[id].(status := Done)];
      case MarkFailed => jobs := jobs[id := jobs[id].(status := Failed)];
      case Requeue(at) =>
        jobs := jobs[id := jobs[id].(status := Pending, scheduledAt := at, lockedAt := None, lockedBy := None)];
    }

    method RecoverStaleLocks(now: int)
      modifies this
      ensures jobs == Recovered(old(jobs), now)
    {
      for i := 0 to |jobs|
        invariant |jobs| == old(|jobs|)
        invariant forall k :: 0 <= k < i ==> jobs[k] == Unlocked(old(jobs)[k], now)
        invariant forall k :: i <= k < |jobs| ==> jobs[k] == old(jobs)[k]
      {
        if Stale(jobs[i], now) {
          jobs := jobs[i := jobs[i].(status := Pending, lockedAt := None, lockedBy := None)];
        }
      }
    }

    method Retry(id: nat, now: int)
      modifies this
      ensures jobs == if id < old(|jobs|) then Retried(old(jobs), id, now) else old(jobs)
    {
      if id < |jobs| {
        jobs := jobs[id := jobs[id].(status := Pending, attempts := 0, scheduledAt := now)];
      }
    }

    method CancelPendingJobsForSubscription(sub: string)
      modifies this
      ensures jobs == WithoutPending(old(jobs), sub)
    {
      for i := 0 to |jobs|
        invariant |jobs| == old(|jobs|)
        invariant forall k :: 0 <= k < i ==> jobs[k] == CancelledFor(old(jobs)[k], sub)
        invariant forall k :: i <= k < |jobs| ==> jobs[k] == old(jobs)[k]
      {
        if jobs[i].status == Pending && jobs[i].subscription == Some(sub) {
          jobs := jobs[i := jobs[i].(status := Cancelled)];
        }
      }
    }
  }
}

/** Runs of the queue with several workers that may crash. */
module QueueRuns {
  import opened Prelude
  import opened JobQueue

  /** A worker that is executing a job, and when it claimed it. */
  datatype Hold = Hold(job: nat, since: int)

  datatype System = System(jobs: Table, held: map<nat, Hold>, now: int)

  datatype Event =
    | Enqueue(scheduledAt: int, maxAttempts: int, subscription: Option<string>)
    | Claim(worker: nat, job: nat, locked: set<nat>)
    | Finish(worker: nat, outcome: Outcome)
    | Crash(worker: nat)
    | Recover
    | OperatorRetry(job: nat)
    | CancelJobs(sub: string)
    | Tick(to: int)

  /** What can happen at all: an idle worker claims a claimable row, a working one
      finishes or dies, the clock does not go back. */
  predicate Enabled(s: System, e: Event) {
    match e
    case Enqueue(_, _, _) => true
    case Claim(w, id, locked) => w !in s.held && Claimable(s.jobs, s.now, locked, id)
    case Finish(w, _) => w in s.held && s.held[w].job < |s.jobs|
    case Crash(w) => w in s.held
    case Recover => true
    case OperatorRetry(id) => id < |s.jobs|
    case CancelJobs(_) => true
    case Tick(to) => to >= s.now
  }

  function Next(s: System, e: Event): System
    requires Enabled(s, e)
  {
    match e
    case Enqueue(at, max, sub) => s.(jobs := s.jobs + [NewJob(at, max, sub)])
    case Claim(w, id, _) => s.(jobs := Claimed(s.jobs, id, w, s.now), held := s.held[w := Hold(id, s.now)])
    case Finish(w, outcome) => s.(jobs := Finished(s.jobs, s.held[w].job, outcome), held := s.held - {w})
    case Crash(w) => s.(held := s.held - {w})
    case Recover => s.(jobs := Recovered(s.jobs, s.now))
    case OperatorRetry(id) => s.(jobs := Retried(s.jobs, id, s.now))
    case CancelJobs(sub) => s.(jobs := WithoutPending(s.jobs, sub))
    case Tick(to) => s.(now := to)
  }

  /** The operating discipline: no live worker outlasts ten minutes, and operator
      retry is applied to failed jobs only. */
  predicate Disciplined(s: System, e: Event) {
    match e
    case Tick(to) => forall w :: w in s.held ==> to <= s.held[w].since + STALE
    case OperatorRetry(id) => id < |s.jobs| && s.jobs[id].status == Failed
    case _ => true
  }

  predicate CanRun(s: System, es: seq<Event>)
    decreases |es|
  {
    es == [] || (Enabled(s, es[0]) && CanRun(Next(s, es[0]), es[1..]))
  }

  function Run(s: System, es: seq<Event>): System
    requires CanRun(s, es)
    decreases |es|
  {
    if es == [] then s else Run(Next(s, es[0]), es[1..])
  }

  predicate DisciplinedRun(s: System, es: seq<Event>)
    requires CanRun(s, es)
    decreases |es|
  {
    es == [] || (Disciplined(s, es[0]) && DisciplinedRun(Next(s, es[0]), es[1..]))
  }

  // ------------------------------------------------------------------
  // No job is executed by two workers at once
  // ------------------------------------------------------------------

  predicate Exclusive(s: System) {
    forall v, w :: v in s.held && w in s.held && v != w ==> s.held[v].job != s.held[w].job
  }

  /** A worker's job is locked in its name, since a time at most ten minutes back. */
  predicate Guarded(s: System) {
    forall w :: w in s.held ==>
      && s.held[w].job < |s.jobs|
      && s.jobs[s.held[w].job].status == Processing
      && s.jobs[s.held[w].job].lockedAt == Some(s.held[w].since)
      && s.jobs[s.held[w].job].lockedBy == Some(w)
      && s.held[w].since <= s.now <= s.held[w].since + STALE
  }

  predicate Safe(s: System) { Exclusive(s) && Guarded(s) }

  /** Rows that workers hold keep their lock, except the one being finished. */
  lemma HeldRowsStayLocked(s: System, e: Event, w: nat)
    requires Safe(s) && Enabled(s, e) && Disciplined(s, e) && w in s.held && w in Next(s, e).held
    ensures Next(s, e).held[w] == s.held[w]
    ensures var id := s.held[w].job; id < |s.jobs| && id < |Next(s, e).jobs| && Next(s, e).jobs[id] == s.jobs[id]
  {
    assert s.held[w].job < |s.jobs|;
    if e.Finish? { assert s.held[e.worker].job != s.held[w].job; }
  }

  lemma StepIsSafe(s: System, e: Event)
    requires Safe(s) && Enabled(s, e) && Disciplined(s, e)
    ensures Safe(Next(s, e))
  {
    var t := Next(s, e);
    forall w | w in t.held && w in s.held
      ensures t.held[w] == s.held[w] && t.held[w].job < |t.jobs| && t.jobs[t.held[w].job] == s.jobs[s.held[w].job]
    {
      HeldRowsStayLocked(s, e, w);
    }
  }

  /** Main exclusion theorem: over every disciplined run, with crashes anywhere, no
      job is held by two workers. */
  lemma {:induction false} DisciplinedRunsAreExclusive(s: System, es: seq<Event>)
    requires Safe(s) && CanRun(s, es) && DisciplinedRun(s, es)
    ensures Safe(Run(s, es))
    decreases |es|
  {
    if es != [] {
      StepIsSafe(s, es[0]);
      DisciplinedRunsAreExclusive(Next(s, es[0]), es[1..]);
    }
  }

  lemma OneStep(s: System, e: Event)
    requires Enabled(s, e)
    ensures CanRun(s, [e]) && Run(s, [e]) == Next(s, e)
  {
    assert [e][1..] == [];
  }

  lemma TwoSteps(s: System, a: Event, b: Event)
    requires Enabled(s, a) && Enabled(Next(s, a), b)
    ensures CanRun(s, [a, b]) && Run(s, [a, b]) == Next(Next(s, a), b)
  {
    OneStep(Next(s, a), b);
    assert [a, b][1..] == [b];
  }

  function RowsBelow(n: nat): (r: set<nat>)
    ensures forall k: nat :: k in r <==> k < n
  {
    if n == 0 then {} else RowsBelow(n - 1) + {n - 1}
  }

  function OtherRows(t: Table, id: nat): set<nat> { RowsBelow(|t|) - {id} }

  /** Without the ten-minute rule: any live worker past the limit, on a job with
      attempts left, can be joined by a second one. */
  lemma LateWorkerCanBeJoined(s: System, w: nat, idle: nat)
    requires w in s.held && idle !in s.held && s.held[w].job < |s.jobs|
    requires var j := s.jobs[s.held[w].job];
      && Stale(j, s.now) && j.scheduledAt <= s.now && j.attempts < j.maxAttempts
    ensures var es := [Recover, Claim(idle, s.held[w].job, OtherRows(s.jobs, s.held[w].job))];
      CanRun(s, es) && !Exclusive(Run(s, es))
  {
    var id := s.held[w].job;
    var claim := Claim(idle, id, OtherRows(s.jobs, id));
    var mid := Next(s, Recover);
    assert Claimable(mid.jobs, mid.now, claim.locked, id);
    var last := Next(mid, claim);
    TwoSteps(s, Recover, claim);
    assert last.held[w].job == last.held[idle].job;
  }

  /** Without the failed-only rule: operator retry of a job that a worker is on
      lets a second one in. */
  lemma RetryOfRunningJobCanBeJoined(s: System, w: nat, idle: nat)
    requires w in s.held && idle !in s.held && s.held[w].job < |s.jobs|
    requires s.jobs[s.held[w].job].maxAttempts > 0
    ensures var es := [OperatorRetry(s.held[w].job), Claim(idle, s.held[w].job, OtherRows(s.jobs, s.held[w].job))];
      CanRun(s, es) && !Exclusive(Run(s, es))
  {
    var id := s.held[w].job;
    var claim := Claim(idle, id, OtherRows(s.jobs, id));
    var mid := Next(s, OperatorRetry(id));
    assert Claimable(mid.jobs, mid.now, claim.locked, id);
    var last := Next(mid, claim);
    TwoSteps(s, OperatorRetry(id), claim);
    assert last.held[w].job == last.held[idle].job;
  }

  // ------------------------------------------------------------------
  // attempts counts claims
  // ------------------------------------------------------------------

  predicate IsRetryOf(e: Event, id: nat) { e.OperatorRetry? && e.job == id }

  function ClaimsOf(es: seq<Event>, id: nat): nat {
    if es == [] then 0 else (if es[0].Claim? && es[0].job == id then 1 else 0) + ClaimsOf(es[1..], id)
  }

  predicate WithinLimit(j: Job) { 0 <= j.attempts && (j.attempts == 0 || j.attempts <= j.maxAttempts) }

  /** Over every run, however undisciplined, attempts stay within the limit, and
      without operator retries they grow by exactly the job's claims. */
  lemma {:induction false} AttemptsGrowByClaims(s: System, es: seq<Event>, id: nat)
    requires CanRun(s, es) && id < |s.jobs| && WithinLimit(s.jobs[id])
    ensures id < |Run(s, es).jobs| && WithinLimit(Run(s, es).jobs[id])
    ensures (forall i :: 0 <= i < |es| ==> !IsRetryOf(es[i], id)) ==>
      Run(s, es).jobs[id].attempts == s.jobs[id].attempts + ClaimsOf(es, id)
    decreases |es|
  {
    if es != [] { AttemptsGrowByClaims(Next(s, es[0]), es[1..], id); }
  }

  /** Main result on attempts: they are the job's claims since its last retry. */
  lemma {:induction false} AttemptsAreClaimsSinceRetry(s: System, es: seq<Event>, id: nat, last: nat)
    requires CanRun(s, es) && id < |s.jobs| && WithinLimit(s.jobs[id])
    requires last < |es| && IsRetryOf(es[last], id)
    requires forall i :: last < i < |es| ==> !IsRetryOf(es[i], id)
    ensures id < |Run(s, es).jobs|
    ensures Run(s, es).jobs[id].attempts == ClaimsOf(es[last + 1..], id)
    decreases |es|
  {
    var next := Next(s, es[0]);
    if last == 0 {
      AttemptsGrowByClaims(next, es[1..], id);
    } else {
      AttemptsAreClaimsSinceRetry(next, es[1..], id, last - 1);
      assert es[1..][last..] == es[last + 1..];
    }
  }

  // ------------------------------------------------------------------
  // What enqueueing, finishing, cancelling and crashing mean for a job
  // ------------------------------------------------------------------

  predicate NoRetryOf(es: seq<Event>, id: nat) { forall i :: 0 <= i < |es| ==> !IsRetryOf(es[i], id) }

  predicate Unheld(s: System, id: nat) { forall w :: w in s.held ==> s.held[w].job != id }

  predicate AtRest(s: System, id: nat) {
    && id < |s.jobs| && Unheld(s, id)
    && (s.jobs[id].status == Done || s.jobs[id].status == Failed || s.jobs[id].status == Status.Cancelled)
  }

  /** A job that is done, failed or cancelled, and held by nobody, is never claimed
      again, whatever else happens short of an operator retry. */
  lemma {:induction false} AtRestForGood(s: System, es: seq<Event>, id: nat)
    requires AtRest(s, id) && CanRun(s, es) && NoRetryOf(es, id)
    ensures ClaimsOf(es, id) == 0 && AtRest(Run(s, es), id) && Run(s, es).jobs[id] == s.jobs[id]
    decreases |es|
  {
    if es != [] {
      var t := Next(s, es[0]);
      assert AtRest(t, id) && t.jobs[id] == s.jobs[id];
      assert NoRetryOf(es[1..], id);
      AtRestForGood(t, es[1..], id);
    }
  }

  /** So a job its worker ends as done or failed stays so and is never run again. */
  lemma FinishedForGood(s: System, w: nat, outcome: Outcome, es: seq<Event>)
    requires Safe(s) && Enabled(s, Finish(w, outcome)) && !outcome.Requeue?
    requires CanRun(Next(s, Finish(w, outcome)), es) && NoRetryOf(es, s.held[w].job)
    ensures var t, id := Run(Next(s, Finish(w, outcome)), es), s.held[w].job;
      && ClaimsOf(es, id) == 0
      && id < |t.jobs| && t.jobs[id].status == if outcome.MarkDone? then Done else Failed
  {
    var t, id := Next(s, Finish(w, outcome)), s.held[w].job;
    assert AtRest(t, id);
    AtRestForGood(t, es, id);
  }

  /** Only a failed one may then be retried by an operator who keeps the discipline. */
  lemma DisciplinedRetryExactlyAfterFailure(s: System, w: nat, outcome: Outcome)
    requires Safe(s) && Enabled(s, Finish(w, outcome))
    ensures Disciplined(Next(s, Finish(w, outcome)), OperatorRetry(s.held[w].job)) <==> outcome.MarkFailed?
  {}

  /** And that makes it due at once, with all its attempts. */
  lemma RetriedIsDue(s: System, id: nat)
    requires Enabled(s, OperatorRetry(id))
    ensures var j := Next(s, OperatorRetry(id)).jobs[id];
      j.attempts == 0 && (Eligible(j, s.now) <==> s.jobs[id].maxAttempts > 0)
  {}

  lemma {:induction false} ClockRuns(s: System, es: seq<Event>)
    requires CanRun(s, es)
    ensures s.now <= Run(s, es).now
    decreases |es|
  {
    if es != [] { ClockRuns(Next(s, es[0]), es[1..]); }
  }

  predicate Waiting(s: System, id: nat, at: int) {
    && id < |s.jobs| && Unheld(s, id) && s.jobs[id].scheduledAt == at
    && (s.jobs[id].status == Pending || s.jobs[id].status == Status.Cancelled)
  }

  lemma {:induction false} WaitingIsNotClaimed(s: System, es: seq<Event>, id: nat, at: int)
    requires Waiting(s, id, at) && CanRun(s, es) && NoRetryOf(es, id) && Run(s, es).now < at
    ensures ClaimsOf(es, id) == 0
    decreases |es|
  {
    if es != [] {
      ClockRuns(s, es);
      assert Waiting(Next(s, es[0]), id, at);
      assert NoRetryOf(es[1..], id);
      WaitingIsNotClaimed(Next(s, es[0]), es[1..], id, at);
    }
  }

  /** A requeued job is due exactly from its new time on, while attempts are left, and
      no run claims it before. */
  lemma RequeuedWaits(s: System, w: nat, at: int, es: seq<Event>, later: int)
    requires Safe(s) && Enabled(s, Finish(w, Requeue(at)))
    requires CanRun(Next(s, Finish(w, Requeue(at))), es) && NoRetryOf(es, s.held[w].job)
    ensures var t, id := Next(s, Finish(w, Requeue(at))), s.held[w].job;
      && (Run(t, es).now < at ==> ClaimsOf(es, id) == 0)
      && (Eligible(t.jobs[id], later) <==> at <= later && s.jobs[id].attempts < s.jobs[id].maxAttempts)
  {
    var t, id := Next(s, Finish(w, Requeue(at))), s.held[w].job;
    assert Waiting(t, id, at);
    if Run(t, es).now < at { WaitingIsNotClaimed(t, es, id, at); }
  }

  /** So does a new one. */
  lemma EnqueuedWaits(s: System, at: int, max: int, sub: Option<string>, es: seq<Event>, later: int)
    requires Safe(s) && CanRun(Next(s, Enqueue(at, max, sub)), es) && NoRetryOf(es, |s.jobs|)
    ensures var t, id := Next(s, Enqueue(at, max, sub)), |s.jobs|;
      && (Run(t, es).now < at ==> ClaimsOf(es, id) == 0)
      && (Eligible(t.jobs[id], later) <==> at <= later && 0 < max)
  {
    var t, id := Next(s, Enqueue(at, max, sub)), |s.jobs|;
    assert Waiting(t, id, at);
    if Run(t, es).now < at { WaitingIsNotClaimed(t, es, id, at); }
  }

  /** Cancelling a subscription's jobs ends every one of them that was waiting for good,
      and touches no other row. */
  lemma CancelledForGood(s: System, sub: string, id: nat, es: seq<Event>)
    requires Safe(s) && id < |s.jobs| && CanRun(Next(s, CancelJobs(sub)), es) && NoRetryOf(es, id)
    ensures var t := Next(s, CancelJobs(sub));
      if s.jobs[id].status == Pending && s.jobs[id].subscription == Some(sub)
      then ClaimsOf(es, id) == 0 && AtRest(Run(t, es), id) else t.jobs[id] == s.jobs[id]
  {
    var t := Next(s, CancelJobs(sub));
    if s.jobs[id].status == Pending && s.jobs[id].subscription == Some(sub) {
      assert AtRest(t, id);
      AtRestForGood(t, es, id);
    }
  }

  /** A job enqueued for a subscription is one of its jobs. */
  lemma EnqueuedThenCancelled(s: System, at: int, max: int, sub: string, es: seq<Event>)
    requires Safe(s) && NoRetryOf(es, |s.jobs|)
    requires CanRun(Next(Next(s, Enqueue(at, max, Some(sub))), CancelJobs(sub)), es)
    ensures ClaimsOf(es, |s.jobs|) == 0
  {
    StepIsSafe(s, Enqueue(at, max, Some(sub)));
    CancelledForGood(Next(s, Enqueue(at, max, Some(sub))), sub, |s.jobs|, es);
  }

  /** The job of a worker that died is due again, and unlocked, exactly once the recovery
      runs more than ten minutes after the claim, if attempts are left. */
  lemma CrashedJobComesBackExactlyWhen(s: System, w: nat, to: int)
    requires Safe(s) && w in s.held && to >= s.now
    ensures var id, hold := s.held[w].job, s.held[w];
      var t := Next(Next(Next(s, Crash(w)), Tick(to)), Recover);
      && (Eligible(t.jobs[id], to) <==>
            && to - hold.since > 10 * 60 * 1_000_000_000
            && s.jobs[id].scheduledAt <= to && s.jobs[id].attempts < s.jobs[id].maxAttempts)
      && (Eligible(t.jobs[id], to) ==> t.jobs[id].lockedAt.None? && t.jobs[id].lockedBy.None?)
  {}

  // ------------------------------------------------------------------
  // Bounded bypass
  // ------------------------------------------------------------------

  /** Claims a job still has ahead of a row scheduled at `at`. */
  function Ahead(j: Job, at: int): int { if j.scheduledAt <= at then Max(0, j.maxAttempts - j.attempts) else 0 }

  /** Remaining attempts of all rows but x scheduled no later than `at`. */
  function Potential(t: Table, x: nat, at: int): (p: int)
    ensures p >= 0
  {
    if t == [] then 0
    else
      var n := |t| - 1;
      Potential(t[..n], x, at) + (if n == x then 0 else Ahead(t[n], at))
  }

  /** An event that leaves x alone and schedules nothing at or before it. */
  predicate Bystander(s: System, e: Event, x: nat)
    requires x < |s.jobs|
  {
    var at := s.jobs[x].scheduledAt;
    match e
    case Enqueue(t, _, _) => t > at
    case Claim(_, id, locked) => id != x && x !in locked
    case Finish(w, outcome) => w in s.held && s.held[w].job != x && (outcome.Requeue? ==> outcome.at > at)
    case OperatorRetry(id) => id != x && s.now > at
    case CancelJobs(sub) => s.jobs[x].subscription != Some(sub)
    case _ => true
  }

  predicate BystanderRun(s: System, es: seq<Event>, x: nat)
    requires CanRun(s, es) && x < |s.jobs|
    decreases |es|
  {
    es == [] || (Bystander(s, es[0], x) && BystanderRun(Next(s, es[0]), es[1..], x))
  }

  function Claims(es: seq<Event>): nat {
    if es == [] then 0 else (if es[0].Claim? then 1 else 0) + Claims(es[1..])
  }

  lemma {:induction false} PotentialOfUpdate(t: Table, x: nat, at: int, i: nat, j: Job)
    requires i < |t|
    ensures Potential(t[i := j], x, at)
      == Potential(t, x, at) + (if i == x then 0 else Ahead(j, at) - Ahead(t[i], at))
  {
    var n := |t| - 1;
    if i == n {
      assert t[i := j][..n] == t[..n];
    } else {
      PotentialOfUpdate(t[..n], x, at, i, j);
      assert t[i := j][..n] == t[..n][i := j];
    }
  }

  lemma {:induction false} PotentialOfSameWeights(t: Table, u: Table, x: nat, at: int)
    requires |t| == |u|
    requires forall i :: 0 <= i < |t| ==> Ahead(t[i], at) == Ahead(u[i], at)
    ensures Potential(t, x, at) == Potential(u, x, at)
  {
    if t != [] { PotentialOfSameWeights(t[..|t| - 1], u[..|u| - 1], x, at); }
  }

  /** A claim uses up one unit of the potential; nothing else adds to it. */
  lemma PotentialStep(s: System, e: Event, x: nat)
    requires Enabled(s, e) && x < |s.jobs| && Eligible(s.jobs[x], s.now) && Bystander(s, e, x)
    ensures Next(s, e).jobs[x] == s.jobs[x] && Eligible(s.jobs[x], Next(s, e).now)
    ensures Potential(Next(s, e).jobs, x, s.jobs[x].scheduledAt) + (if e.Claim? then 1 else 0)
      <= Potential(s.jobs, x, s.jobs[x].scheduledAt)
  {
    var at := s.jobs[x].scheduledAt;
    match e
    case Enqueue(t, max, sub) =>
      assert (s.jobs + [NewJob(t, max, sub)])[..|s.jobs|] == s.jobs;
    case Claim(w, id, locked) => PotentialOfUpdate(s.jobs, x, at, id, Next(s, e).jobs[id]);
    case Finish(w, outcome) => PotentialOfUpdate(s.jobs, x, at, s.held[w].job, Next(s, e).jobs[s.held[w].job]);
    case OperatorRetry(id) => PotentialOfUpdate(s.jobs, x, at, id, Next(s, e).jobs[id]);
    case Recover => PotentialOfSameWeights(s.jobs, Next(s, e).jobs, x, at);
    case CancelJobs(sub) => PotentialOfSameWeights(s.jobs, Next(s, e).jobs, x, at);
    case Crash(_) =>
    case Tick(_) =>
  }

  /** Bounded bypass: as long as an eligible job is passed over, the others can be
      claimed at most as often as the attempts left to jobs scheduled no later. */
  lemma {:induction false} BypassIsBounded(s: System, es: seq<Event>, x: nat)
    requires CanRun(s, es) && x < |s.jobs| && Eligible(s.jobs[x], s.now) && BystanderRun(s, es, x)
    ensures Claims(es) <= Potential(s.jobs, x, s.jobs[x].scheduledAt)
    ensures var u := Run(s, es); x < |u.jobs| && u.jobs[x] == s.jobs[x] && Eligible(u.jobs[x], u.now)
    decreases |es|
  {
    if es != [] {
      PotentialStep(s, es[0], x);
      BypassIsBounded(Next(s, es[0]), es[1..], x);
    }
  }

  /** And the queue is never stuck meanwhile: once the potential is used up, the
      only row a claim can take is the job itself. */
  lemma ExhaustedPotentialYieldsTheJob(s: System, x: nat, locked: set<nat>, id: nat)
    requires x < |s.jobs| && Eligible(s.jobs[x], s.now) && x !in locked
    requires Potential(s.jobs, x, s.jobs[x].scheduledAt) == 0
    requires Claimable(s.jobs, s.now, locked, id)
    ensures id == x
  {
    if id != x {
      var at := s.jobs[x].scheduledAt;
      var spent := s.jobs[id].(attempts := s.jobs[id].maxAttempts);
      PotentialOfUpdate(s.jobs, x, at, id, spent);
    }
  }
}
