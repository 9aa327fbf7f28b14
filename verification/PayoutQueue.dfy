/** Payout jobs on the job queue: the queue's discipline is what keeps two runs of
    the payout handler from reading the same pending row. */
module PayoutQueue {
  import opened Calendar
  import opened Ledger
  import opened Prelude
  import Q = QueueRuns
  import P = Payouts

  /** `payoutOf` is the payload of each payout job. */
  datatype World = World(queue: Q.System, bank: P.World, payoutOf: map<nat, string>)

  datatype Event =
    | Request(id: string, amount: int, account: Account, due: int, maxAttempts: int)
    | Begin(worker: nat)
    | Work(worker: nat, success: bool, at: Stamp)
    | OtherRow(entry: Entry)
    | OnQueue(event: Q.Event)

  /** A worker runs the handler for the job it holds; it finishes the job only
      after the handler has returned, and dies with it. */
  predicate Enabled(w: World, e: Event) {
    match e
    case Request(id, amount, account, _, _) => P.Enabled(w.bank, P.Request(id, amount, account))
    case Begin(v) => v in w.queue.held && w.queue.held[v].job in w.payoutOf && v !in w.bank.live
    case Work(v, success, at) => P.Enabled(w.bank, P.Work(v, success, at))
    case OtherRow(row) => P.Enabled(w.bank, P.OtherRow(row))
    case OnQueue(q) => Q.Enabled(w.queue, q) && (q.Finish? ==> q.worker !in w.bank.live)
  }

  function Next(w: World, e: Event): World
    requires Enabled(w, e)
  {
    match e
    case Request(id, amount, account, due, max) =>
      World(Q.Next(w.queue, Q.Enqueue(due, max, None)), P.Next(w.bank, P.Request(id, amount, account)),
            w.payoutOf[|w.queue.jobs| := id])
    case Begin(v) => w.(bank := P.Next(w.bank, P.Start(v, w.payoutOf[w.queue.held[v].job])))
    case Work(v, success, at) => w.(bank := P.Next(w.bank, P.Work(v, success, at)))
    case OtherRow(row) => w.(bank := P.Next(w.bank, P.OtherRow(row)))
    case OnQueue(q) =>
      var died := q.Crash? && q.worker in w.bank.live;
      w.(queue := Q.Next(w.queue, q), bank := if died then P.Next(w.bank, P.Crash(q.worker)) else w.bank)
  }

  predicate Disciplined(w: World, e: Event) { e.OnQueue? ==> Q.Disciplined(w.queue, e.event) }

  predicate CanRun(w: World, es: seq<Event>)
    decreases |es|
  {
    es == [] || (Enabled(w, es[0]) && CanRun(Next(w, es[0]), es[1..]))
  }

  function Run(w: World, es: seq<Event>): World
    requires CanRun(w, es)
    decreases |es|
  {
    if es == [] then w else Run(Next(w, es[0]), es[1..])
  }

  predicate DisciplinedRun(w: World, es: seq<Event>)
    requires CanRun(w, es)
    decreases |es|
  {
    es == [] || (Disciplined(w, es[0]) && DisciplinedRun(Next(w, es[0]), es[1..]))
  }

  /** One job per payout, for known payouts. */
  predicate OneJobEach(w: World) {
    && (forall j :: j in w.payoutOf ==> j < |w.queue.jobs| && w.payoutOf[j] in w.bank.payouts)
    && (forall i, j :: i in w.payoutOf && j in w.payoutOf && i != j ==> w.payoutOf[i] != w.payoutOf[j])
  }

  predicate RunsItsJob(w: World, v: nat)
    requires v in w.bank.live
  {
    && v in w.queue.held && w.queue.held[v].job in w.payoutOf
    && w.bank.live[v].payout == w.payoutOf[w.queue.held[v].job]
  }

  /** A run in progress is on the payout of the job its worker holds. */
  predicate RunsOwnJob(w: World) {
    forall v :: v in w.bank.live ==> RunsItsJob(w, v)
  }

  ghost predicate Sound(w: World) { Q.Safe(w.queue) && P.Orderly(w.bank) && OneJobEach(w) && RunsOwnJob(w) }

  /** Exclusive jobs and one job per payout give the admission rule. */
  lemma BeginIsAdmitted(w: World, v: nat)
    requires Q.Safe(w.queue) && OneJobEach(w) && RunsOwnJob(w) && Enabled(w, Begin(v))
    ensures P.Admitted(w.bank, P.Start(v, w.payoutOf[w.queue.held[v].job]))
  {
    var id := w.payoutOf[w.queue.held[v].job];
    forall u | u in w.bank.live
      ensures w.bank.live[u].payout != id
    {
      assert u != v && w.queue.held[u].job != w.queue.held[v].job;
    }
  }

  lemma BankStep(w: World, e: Event)
    requires Sound(w) && Enabled(w, e) && Disciplined(w, e)
    ensures P.Orderly(Next(w, e).bank)
  {
    match e
    case Request(id, amount, account, _, _) => P.StepIsOrderly(w.bank, P.Request(id, amount, account));
    case Begin(v) =>
      BeginIsAdmitted(w, v);
      P.StepIsOrderly(w.bank, P.Start(v, w.payoutOf[w.queue.held[v].job]));
    case Work(v, success, at) => P.StepIsOrderly(w.bank, P.Work(v, success, at));
    case OtherRow(row) => P.StepIsOrderly(w.bank, P.OtherRow(row));
    case OnQueue(q) => if q.Crash? && q.worker in w.bank.live { P.StepIsOrderly(w.bank, P.Crash(q.worker)); }
  }

  lemma QueueStep(w: World, e: Event)
    requires Sound(w) && Enabled(w, e) && Disciplined(w, e)
    ensures Q.Safe(Next(w, e).queue)
  {
    match e
    case Request(_, _, _, due, max) => Q.StepIsSafe(w.queue, Q.Enqueue(due, max, None));
    case OnQueue(q) => Q.StepIsSafe(w.queue, q);
    case _ =>
  }

  /** The queue keeps its rows and every hold that does not end. */
  lemma QueueKeepsHolds(s: Q.System, q: Q.Event)
    requires Q.Enabled(s, q)
    ensures |s.jobs| <= |Q.Next(s, q).jobs|
    ensures forall v :: v in s.held && !((q.Finish? || q.Crash?) && q.worker == v) ==>
      v in Q.Next(s, q).held && Q.Next(s, q).held[v] == s.held[v]
  {
  }

  lemma QueueEventLinks(w: World, q: Q.Event)
    requires Sound(w) && Enabled(w, OnQueue(q))
    ensures OneJobEach(Next(w, OnQueue(q))) && RunsOwnJob(Next(w, OnQueue(q)))
  {
    QueueKeepsHolds(w.queue, q);
    var u := Next(w, OnQueue(q));
    assert u.bank.payouts == w.bank.payouts;
    assert forall v :: v in u.bank.live ==> v in w.bank.live && u.bank.live[v] == w.bank.live[v];
    assert forall v :: v in u.bank.live ==> !((q.Finish? || q.Crash?) && q.worker == v);
  }

  lemma RequestLinks(w: World, e: Event)
    requires Sound(w) && e.Request? && Enabled(w, e)
    ensures OneJobEach(Next(w, e)) && RunsOwnJob(Next(w, e))
  {
    var u := Next(w, e);
    assert u.queue.held == w.queue.held && u.bank.live == w.bank.live;
    assert |u.queue.jobs| == |w.queue.jobs| + 1;
  }

  /** A bank step that touches only one worker's run, on the payout it should. */
  lemma LocalStepLinks(w: World, u: World, v: nat)
    requires OneJobEach(w) && RunsOwnJob(w)
    requires u.queue == w.queue && u.payoutOf == w.payoutOf && u.bank.payouts.Keys == w.bank.payouts.Keys
    requires u.bank.live - {v} == w.bank.live - {v}
    requires v in u.bank.live ==> RunsItsJob(u, v)
    ensures OneJobEach(u) && RunsOwnJob(u)
  {
    forall x | x in u.bank.live && x != v
      ensures x in w.bank.live && u.bank.live[x] == w.bank.live[x]
    {
      assert x in u.bank.live - {v} && (u.bank.live - {v})[x] == (w.bank.live - {v})[x];
    }
  }

  lemma BankEventLinks(w: World, e: Event)
    requires OneJobEach(w) && RunsOwnJob(w) && (e.Begin? || e.Work? || e.OtherRow?) && Enabled(w, e)
    ensures OneJobEach(Next(w, e)) && RunsOwnJob(Next(w, e))
  {
    match e
    case Begin(v) => LocalStepLinks(w, Next(w, e), v);
    case Work(v, success, at) =>
      P.WorkIsLocal(w.bank, P.Work(v, success, at));
      LocalStepLinks(w, Next(w, e), v);
    case OtherRow(_) => LocalStepLinks(w, Next(w, e), 0);
  }

  lemma LinkStep(w: World, e: Event)
    requires Sound(w) && Enabled(w, e)
    ensures OneJobEach(Next(w, e)) && RunsOwnJob(Next(w, e))
  {
    match e
    case OnQueue(q) => QueueEventLinks(w, q);
    case Request(_, _, _, _, _) => RequestLinks(w, e);
    case _ => BankEventLinks(w, e);
  }

  lemma {:induction false} DisciplinedRunsAreSound(w: World, es: seq<Event>)
    requires Sound(w) && CanRun(w, es) && DisciplinedRun(w, es)
    ensures Sound(Run(w, es))
    decreases |es|
  {
    if es != [] {
      BankStep(w, es[0]);
      QueueStep(w, es[0]);
      LinkStep(w, es[0]);
      DisciplinedRunsAreSound(Next(w, es[0]), es[1..]);
    }
  }

  function Initial(now: int): World { World(Q.System([], map[], now), P.EMPTY, map[]) }

  /** Main result: if every live worker finishes within ten minutes and operators
      retry failed jobs only, then over every run from empty tables, with workers
      dying anywhere, TransferToBank is called at most once for any payout, no
      payout is debited twice, and only completed payouts are debited. */
  lemma AtMostOneTransferPerPayout(now: int, es: seq<Event>, id: string)
    requires CanRun(Initial(now), es) && DisciplinedRun(Initial(now), es)
    ensures var w := Run(Initial(now), es);
      && w.bank.transfers[id] <= 1
      && P.Orderly(w.bank)
  {
    DisciplinedRunsAreSound(Initial(now), es);
  }
}
