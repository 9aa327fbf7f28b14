/** Recovery retries of one subscription in any interleaving: runs load the row at
    any time, take their effects one by one, may die between any two, and other
    writes of the row come in between. */
module RetryRace {
  import opened Books
  import opened Handlers
  import opened Keys
  import opened Outcomes
  import opened Subscriptions

  /** What a run will do next is claim, charge, note the rail, or write its result. */
  datatype Point = Loaded | Claimed | Charged | Noted

  datatype Retry = Retry(sub: Row, env: Env, point: Point)

  datatype Race = Race(row: Row, calls: seq<Call>, runs: map<nat, Retry>, trigger: bool)

  datatype Event = Load(run: nat, env: Env) | Step(run: nat) | Die(run: nat) | Other(write: Write)

  /** Only retries claim; any other write may come from anywhere. */
  predicate Enabled(s: Race, e: Event) {
    match e
    case Load(w, _) => w !in s.runs && RetryApplies(s.row)
    case Step(w) => w in s.runs
    case Die(w) => w in s.runs
    case Other(u) => !u.ClaimAttempt?
  }

  function Wrote(s: Race, u: Write): Race { s.(row := Written(s.row, u, s.trigger)) }

  function At(s: Race, w: nat, r: Retry, p: Point): Race { s.(runs := s.runs[w := r.(point := p)]) }

  function Ended(s: Race, w: nat): Race { s.(runs := s.runs - {w}) }

  /** One effect of a run.  Without a rail it charges nothing and notes at once; an
      infrastructure error ends it. */
  function Stepped(s: Race, w: nat): Race
    requires w in s.runs
  {
    var r := s.runs[w];
    var rail := RecoveryRail(r.sub, r.env);
    match r.point
    case Loaded =>
      if Matches(s.row, ClaimAttempt(r.sub.attempt)) then At(Wrote(s, ClaimAttempt(r.sub.attempt)), w, r, Claimed)
      else Ended(s, w)
    case Claimed =>
      if rail == Manual then At(Wrote(s, SetRail(rail)), w, r, Noted)
      else
        var called := s.(calls := s.calls + [RecoveryCall(r.sub, rail, r.sub.attempt + 1, r.env)]);
        if RecoveryAnswer(r.sub, r.env).InfraError? then Ended(called, w) else At(called, w, r, Charged)
    case Charged => At(Wrote(s, SetRail(rail)), w, r, Noted)
    case Noted =>
      if RecoveryAnswer(r.sub, r.env).InfraError? then Ended(s, w)
      else Ended(Wrote(s, RecoveryWrite(r.sub, r.env)), w)
  }

  function Next(s: Race, e: Event): Race
    requires Enabled(s, e)
  {
    match e
    case Load(w, env) => s.(runs := s.runs[w := Retry(s.row, env, Loaded)])
    case Step(w) => Stepped(s, w)
    case Die(w) => Ended(s, w)
    case Other(u) => if Matches(s.row, u) then Wrote(s, u) else s
  }

  predicate CanRun(s: Race, es: seq<Event>)
    decreases |es|
  {
    es == [] || (Enabled(s, es[0]) && CanRun(Next(s, es[0]), es[1..]))
  }

  function After(s: Race, es: seq<Event>): Race
    requires CanRun(s, es)
    decreases |es|
  {
    if es == [] then s else After(Next(s, es[0]), es[1..])
  }

  // ------------------------------------------------------------------
  // A run that nobody disturbs is a retry
  // ------------------------------------------------------------------

  /** The first k effects of a run, if it has as many. */
  function Alone(s: Race, w: nat, k: nat): Race
    decreases k
  {
    if k == 0 || w !in s.runs then s else Alone(Stepped(s, w), w, k - 1)
  }

  /** Same row and calls. */
  predicate Shows(s: Race, row: Row, calls: seq<Call>) { s.row == row && s.calls == calls }

  lemma FromNoted(s: Race, w: nat, k: nat)
    requires w in s.runs && s.runs[w].point == Noted && !RecoveryAnswer(s.runs[w].sub, s.runs[w].env).InfraError?
    ensures var r := s.runs[w];
      Shows(Alone(s, w, k), if k == 0 then s.row else Written(s.row, RecoveryWrite(r.sub, r.env), s.trigger), s.calls)
  {
    if k > 0 { assert Alone(s, w, k) == Alone(Stepped(s, w), w, k - 1); }
  }

  lemma FromNoting(s: Race, w: nat, k: nat)
    requires w in s.runs && !RecoveryAnswer(s.runs[w].sub, s.runs[w].env).InfraError?
    requires s.runs[w].point == Charged
      || (s.runs[w].point == Claimed && RecoveryRail(s.runs[w].sub, s.runs[w].env) == Manual)
    ensures var r := s.runs[w];
      var noted := Written(s.row, SetRail(RecoveryRail(r.sub, r.env)), s.trigger);
      Shows(Alone(s, w, k), if k == 0 then s.row else if k == 1 then noted
                            else Written(noted, RecoveryWrite(r.sub, r.env), s.trigger), s.calls)
  {
    if k > 0 { FromNoted(Stepped(s, w), w, k - 1); }
  }

  lemma FromClaimed(s: Race, w: nat, k: nat)
    requires w in s.runs && s.runs[w].point == Claimed && RecoveryRail(s.runs[w].sub, s.runs[w].env) != Manual
    ensures var r := s.runs[w];
      var rail := RecoveryRail(r.sub, r.env);
      var noted := Written(s.row, SetRail(rail), s.trigger);
      Shows(Alone(s, w, k),
            if k <= 1 || RecoveryAnswer(r.sub, r.env).InfraError? then s.row else if k == 2 then noted
            else Written(noted, RecoveryWrite(r.sub, r.env), s.trigger),
            if k == 0 then s.calls else s.calls + [RecoveryCall(r.sub, rail, r.sub.attempt + 1, r.env)])
  {
    var r := s.runs[w];
    if k > 0 {
      if RecoveryAnswer(r.sub, r.env).InfraError? {
        assert Alone(Stepped(s, w), w, k - 1) == Stepped(s, w);
      } else {
        FromNoting(Stepped(s, w), w, k - 1);
      }
    }
  }

  lemma ClaimedFirst(s: Race, w: nat, k: nat)
    requires w in s.runs && s.runs[w].point == Loaded && s.row.attempt == s.runs[w].sub.attempt && k > 0
    ensures var r, row := s.runs[w], Written(s.row, ClaimAttempt(s.row.attempt), s.trigger);
      Alone(s, w, k) == Alone(At(s.(row := row), w, r, Claimed), w, k - 1)
  {}

  lemma AloneWithoutARail(s: Race, w: nat, k: nat)
    requires w in s.runs && s.runs[w].point == Loaded && s.row.attempt == s.runs[w].sub.attempt && k > 0
    requires RecoveryRail(s.runs[w].sub, s.runs[w].env) == Manual
    ensures Shows(Alone(s, w, k), RetryRow(s.row, s.runs[w].sub, s.runs[w].env, k, s.trigger), s.calls)
  {
    var row := Written(s.row, ClaimAttempt(s.row.attempt), s.trigger);
    ClaimedFirst(s, w, k);
    FromNoting(At(s.(row := row), w, s.runs[w], Claimed), w, k - 1);
  }

  lemma AloneWithARail(s: Race, w: nat, k: nat)
    requires w in s.runs && s.runs[w].point == Loaded && s.row.attempt == s.runs[w].sub.attempt && k > 0
    requires RecoveryRail(s.runs[w].sub, s.runs[w].env) != Manual
    ensures var r := s.runs[w];
      Shows(Alone(s, w, k), RetryRow(s.row, r.sub, r.env, k, s.trigger), s.calls + RetryCalls(s.row, r.sub, r.env, k))
  {
    var row := Written(s.row, ClaimAttempt(s.row.attempt), s.trigger);
    ClaimedFirst(s, w, k);
    FromClaimed(At(s.(row := row), w, s.runs[w], Claimed), w, k - 1);
  }

  /** A run that loaded the row earlier and takes k effects undisturbed does to row and
      calls what the handler does that lives for k effects, for every k. */
  lemma AloneIsRetryRun(s: Race, w: nat, books: Tables, k: nat)
    requires w in s.runs && s.runs[w].point == Loaded && RetryApplies(s.runs[w].sub)
    ensures var t := RetryRun(State(s.row, books, s.calls, k, s.trigger), s.runs[w].sub, s.runs[w].env);
      Shows(Alone(s, w, k), t.row, t.calls)
  {
    var r := s.runs[w];
    RetryIs(State(s.row, books, s.calls, k, s.trigger), r.sub, r.env);
    if k > 0 && s.row.attempt == r.sub.attempt {
      if RecoveryRail(r.sub, r.env) == Manual { AloneWithoutARail(s, w, k); } else { AloneWithARail(s, w, k); }
    } else if k > 0 {
      assert Alone(s, w, k) == Alone(Ended(s, w), w, k - 1) == Ended(s, w);
    }
  }

  // ------------------------------------------------------------------
  // How often a counter value is claimed, and its number charged
  // ------------------------------------------------------------------

  /** A claim of the value c that matches. */
  predicate IsClaim(s: Race, e: Event, c: nat) {
    && e.Step? && e.run in s.runs && s.runs[e.run].point == Loaded
    && s.runs[e.run].sub.attempt == c && s.row.attempt == c
  }

  function Claims(s: Race, es: seq<Event>, c: nat): nat
    requires CanRun(s, es)
    decreases |es|
  {
    if es == [] then 0 else (if IsClaim(s, es[0], c) then 1 else 0) + Claims(Next(s, es[0]), es[1..], c)
  }

  /** An event that brings the counter from above c back to c or below. */
  predicate Lowers(s: Race, e: Event, c: nat)
    requires Enabled(s, e)
  {
    s.row.attempt > c && Next(s, e).row.attempt <= c
  }

  function Lowerings(s: Race, es: seq<Event>, c: nat): nat
    requires CanRun(s, es)
    decreases |es|
  {
    if es == [] then 0 else (if Lowers(s, es[0], c) then 1 else 0) + Lowerings(Next(s, es[0]), es[1..], c)
  }

  /** Exactly the writes that lower it: a renewal, or an absolute attempt number. */
  lemma LoweringWritesAre(r: Row, u: Write, trigger: bool, c: nat)
    ensures r.attempt > c && Written(r, u, trigger).attempt <= c <==>
      r.attempt > c && (u.Renew? || u.RenewIf? || (u.SetDunning? && u.attempt <= c))
  {}

  function Above(s: Race, c: nat): nat { if s.row.attempt > c then 1 else 0 }

  lemma StepCounts(s: Race, e: Event, c: nat)
    requires Enabled(s, e)
    ensures (if IsClaim(s, e, c) then 1 else 0) + Above(s, c)
            <= (if Lowers(s, e, c) then 1 else 0) + Above(Next(s, e), c)
  {}

  /** Main result on claims, over every interleaving with arbitrary loads: a counter
      value is claimed at most once more than it is brought back to or below. */
  lemma {:induction false} ClaimsPerLowering(s: Race, es: seq<Event>, c: nat)
    requires CanRun(s, es)
    ensures Claims(s, es, c) + Above(s, c) <= Lowerings(s, es, c) + Above(After(s, es), c)
    ensures Claims(s, es, c) <= Lowerings(s, es, c) + 1
    decreases |es|
  {
    if es != [] {
      StepCounts(s, es[0], c);
      ClaimsPerLowering(Next(s, es[0]), es[1..], c);
    }
  }

  /** Charges with the number that claiming c gives. */
  function ChargesOf(calls: seq<Call>, c: nat): nat {
    if calls == [] then 0
    else ChargesOf(calls[..|calls| - 1], c) + if calls[|calls| - 1].number == c + 1 then 1 else 0
  }

  lemma ChargesOfAppend(calls: seq<Call>, call: Call, c: nat)
    ensures ChargesOf(calls + [call], c) == ChargesOf(calls, c) + if call.number == c + 1 then 1 else 0
  {
    assert (calls + [call])[..|calls|] == calls;
  }

  /** Runs that have claimed c and not yet charged. */
  function Winners(s: Race, c: nat): set<nat> {
    set w | w in s.runs && s.runs[w].point == Claimed && s.runs[w].sub.attempt == c
  }

  lemma SizeWithout(ws: set<nat>, w: nat)
    ensures |ws| == |ws - {w}| + if w in ws then 1 else 0
  {
    if w in ws { assert ws == (ws - {w}) + {w}; } else { assert ws == ws - {w}; }
  }

  lemma WinnersChange(s: Race, t: Race, w: nat, c: nat)
    requires s.runs - {w} == t.runs - {w}
    ensures |Winners(t, c)| - |Winners(s, c)|
      == (if w in Winners(t, c) then 1 else 0) - (if w in Winners(s, c) then 1 else 0)
  {
    forall x | x != w
      ensures x in Winners(t, c) <==> x in Winners(s, c)
    {
      assert x in s.runs <==> x in s.runs - {w};
      assert x in t.runs <==> x in t.runs - {w};
      if x in s.runs { assert (s.runs - {w})[x] == s.runs[x] && (t.runs - {w})[x] == t.runs[x]; }
    }
    assert Winners(t, c) - {w} == Winners(s, c) - {w};
    SizeWithout(Winners(s, c), w);
    SizeWithout(Winners(t, c), w);
  }

  function CallOfRun(r: Retry): Call { RecoveryCall(r.sub, RecoveryRail(r.sub, r.env), r.sub.attempt + 1, r.env) }

  predicate Calling(r: Retry) { r.point == Claimed && RecoveryRail(r.sub, r.env) != Manual }

  predicate Writing(r: Retry) { r.point == Noted && !RecoveryAnswer(r.sub, r.env).InfraError? }

  predicate WritesRenewal(r: Retry) { Writing(r) && RecoveryWrite(r.sub, r.env).Renew? }

  lemma SteppedRuns(s: Race, w: nat)
    requires w in s.runs
    ensures var t, r := Stepped(s, w), s.runs[w];
      && t.runs - {w} == s.runs - {w}
      && (w in t.runs ==> t.runs[w].sub == r.sub && t.runs[w].env == r.env && t.runs[w].point != Loaded)
      && (w in t.runs && t.runs[w].point == Claimed <==> r.point == Loaded && s.row.attempt == r.sub.attempt)
  {}

  lemma WriteKeepsId(r: Row, u: Write, trigger: bool)
    ensures Written(r, u, trigger).id == r.id
  {}

  lemma SteppedRow(s: Race, w: nat)
    requires w in s.runs
    ensures var t, r := Stepped(s, w), s.runs[w];
      && t.row.id == s.row.id && t.trigger == s.trigger
      && t.row.attempt == (if r.point == Loaded && s.row.attempt == r.sub.attempt then s.row.attempt + 1
                           else if Writing(r) then Written(s.row, RecoveryWrite(r.sub, r.env), s.trigger).attempt
                           else s.row.attempt)
  {
    if Writing(s.runs[w]) {
      WriteKeepsId(s.row, RecoveryWrite(s.runs[w].sub, s.runs[w].env), s.trigger);
    }
  }

  /** What one effect of a run changes. */
  lemma SteppedIs(s: Race, w: nat)
    requires w in s.runs
    ensures var t, r := Stepped(s, w), s.runs[w];
      && t.runs - {w} == s.runs - {w} && t.row.id == s.row.id && t.trigger == s.trigger
      && (w in t.runs ==> t.runs[w].sub == r.sub && t.runs[w].env == r.env && t.runs[w].point != Loaded)
      && (w in t.runs && t.runs[w].point == Claimed <==> r.point == Loaded && s.row.attempt == r.sub.attempt)
      && t.calls == (if Calling(r) then s.calls + [CallOfRun(r)] else s.calls)
      && t.row.attempt == (if r.point == Loaded && s.row.attempt == r.sub.attempt then s.row.attempt + 1
                           else if Writing(r) then Written(s.row, RecoveryWrite(r.sub, r.env), s.trigger).attempt
                           else s.row.attempt)
  {
    SteppedRuns(s, w);
    SteppedRow(s, w);
  }

  /** Other runs stay as they are. */
  lemma OthersStay(s: Race, t: Race, w: nat, x: nat)
    requires s.runs - {w} == t.runs - {w} && x != w
    ensures x in t.runs <==> x in s.runs
    ensures x in t.runs ==> t.runs[x] == s.runs[x]
  {
    assert x in s.runs <==> x in s.runs - {w};
    assert x in t.runs <==> x in t.runs - {w};
    if x in s.runs { assert (s.runs - {w})[x] == s.runs[x] && (t.runs - {w})[x] == t.runs[x]; }
  }

  lemma StepCharges(s: Race, w: nat, c: nat)
    requires w in s.runs
    ensures ChargesOf(Stepped(s, w).calls, c) + |Winners(Stepped(s, w), c)|
      <= ChargesOf(s.calls, c) + |Winners(s, c)| + if IsClaim(s, Step(w), c) then 1 else 0
  {
    SteppedIs(s, w);
    WinnersChange(s, Stepped(s, w), w, c);
    ChargesOfAppend(s.calls, CallOfRun(s.runs[w]), c);
  }

  lemma EventCharges(s: Race, e: Event, c: nat)
    requires Enabled(s, e)
    ensures ChargesOf(Next(s, e).calls, c) + |Winners(Next(s, e), c)|
      <= ChargesOf(s.calls, c) + |Winners(s, c)| + if IsClaim(s, e, c) then 1 else 0
  {
    match e
    case Step(w) => StepCharges(s, w, c);
    case Load(w, _) =>
      assert s.runs - {w} == Next(s, e).runs - {w};
      WinnersChange(s, Next(s, e), w, c);
    case Die(w) =>
      assert s.runs - {w} == Next(s, e).runs - {w};
      WinnersChange(s, Next(s, e), w, c);
    case Other(_) => assert Winners(Next(s, e), c) == Winners(s, c);
  }

  lemma {:induction false} ChargesPerClaim(s: Race, es: seq<Event>, c: nat)
    requires CanRun(s, es)
    ensures ChargesOf(After(s, es).calls, c) + |Winners(After(s, es), c)|
      <= ChargesOf(s.calls, c) + |Winners(s, c)| + Claims(s, es, c)
    decreases |es|
  {
    if es != [] {
      EventCharges(s, es[0], c);
      ChargesPerClaim(Next(s, es[0]), es[1..], c);
    }
  }

  /** So from a quiet start an attempt number is charged at most once more than the
      counter is brought back below it. */
  lemma ChargesPerLowering(s: Race, es: seq<Event>, c: nat)
    requires CanRun(s, es) && s.runs == map[]
    ensures ChargesOf(After(s, es).calls, c) <= ChargesOf(s.calls, c) + 1 + Lowerings(s, es, c)
  {
    assert Winners(s, c) == {};
    ChargesPerClaim(s, es, c);
    ClaimsPerLowering(s, es, c);
  }

  // ---- shared keys ----

  /** Every run and every new call is of this subscription, keyed by its number. */
  predicate Keyed(s: Race, from: nat, id: string) {
    && s.row.id == id && from <= |s.calls|
    && (forall w :: w in s.runs ==> s.runs[w].sub.id == id)
    && (forall i :: from <= i < |s.calls| ==>
          s.calls[i].number > 0 && s.calls[i].ref == RetryKey(s.calls[i].rail, id, s.calls[i].number))
  }

  lemma StepIsKeyed(s: Race, w: nat, from: nat, id: string)
    requires w in s.runs && Keyed(s, from, id)
    ensures Keyed(Stepped(s, w), from, id) && s.calls <= Stepped(s, w).calls
  {
    var t := Stepped(s, w);
    SteppedIs(s, w);
    forall x | x in t.runs
      ensures t.runs[x].sub.id == id
    {
      if x != w { OthersStay(s, t, w, x); }
    }
  }

  lemma EventIsKeyed(s: Race, e: Event, from: nat, id: string)
    requires Enabled(s, e) && Keyed(s, from, id)
    ensures Keyed(Next(s, e), from, id) && s.calls <= Next(s, e).calls
  {
    if e.Step? { StepIsKeyed(s, e.run, from, id); }
  }

  lemma {:induction false} RaceIsKeyed(s: Race, es: seq<Event>, from: nat, id: string)
    requires CanRun(s, es) && Keyed(s, from, id)
    ensures Keyed(After(s, es), from, id) && s.calls <= After(s, es).calls
    decreases |es|
  {
    if es != [] {
      EventIsKeyed(s, es[0], from, id);
      RaceIsKeyed(Next(s, es[0]), es[1..], from, id);
    }
  }

  lemma {:induction false} TwoOfANumber(calls: seq<Call>, i: nat, j: nat, c: nat)
    requires i < j < |calls| && calls[i].number == calls[j].number == c + 1
    ensures ChargesOf(calls, c) >= 2
  {
    var n := |calls| - 1;
    if j < n {
      TwoOfANumber(calls[..n], i, j, c);
    } else {
      OneOfANumber(calls[..n], i, c);
    }
  }

  lemma {:induction false} OneOfANumber(calls: seq<Call>, i: nat, c: nat)
    requires i < |calls| && calls[i].number == c + 1
    ensures ChargesOf(calls, c) >= 1
  {
    if i < |calls| - 1 { OneOfANumber(calls[..|calls| - 1], i, c); }
  }

  /** Two charges share a key only once a write has lowered the counter past the value
      they claimed; taken for the events up to the second charge, before that charge. */
  lemma SharedKeyMeansLowered(s: Race, es: seq<Event>, i: nat, j: nat)
    requires CanRun(s, es) && s.runs == map[] && s.calls == [] && IsId(s.row.id)
    requires i < j < |After(s, es).calls| && After(s, es).calls[i].ref == After(s, es).calls[j].ref
    ensures After(s, es).calls[i].number > 0
    ensures Lowerings(s, es, After(s, es).calls[i].number - 1) >= 1
  {
    var calls := After(s, es).calls;
    RaceIsKeyed(s, es, 0, s.row.id);
    RetryKeyIsInjective(calls[i].rail, s.row.id, calls[i].number, calls[j].rail, s.row.id, calls[j].number);
    TwoOfANumber(calls, i, j, calls[i].number - 1);
    ChargesPerLowering(s, es, calls[i].number - 1);
  }

  // ------------------------------------------------------------------
  // Retries that loaded one row
  // ------------------------------------------------------------------

  /** Every run loaded the counter value a. */
  predicate SameLoad(s: Race, a: nat) {
    forall w :: w in s.runs ==> s.runs[w].sub.attempt == a && RetryApplies(s.runs[w].sub)
  }

  /** No further loads, and only cancellations from outside. */
  predicate Closed(es: seq<Event>) {
    forall i :: 0 <= i < |es| ==> !es[i].Load? && (es[i].Other? ==> es[i].write.Cancel? || es[i].write.FlagCancel?)
  }

  predicate AllLoaded(s: Race) { forall w :: w in s.runs ==> s.runs[w].point == Loaded }

  /** A retry's absolute attempt number is the one after the one it loaded. */
  lemma RecoveryWriteNumber(sub: Row, env: Env, r: Row, trigger: bool)
    requires RetryApplies(sub) && !RecoveryAnswer(sub, env).InfraError?
    ensures var n := Written(r, RecoveryWrite(sub, env), trigger).attempt;
      n == r.attempt || n == sub.attempt + 1 || (n == 0 && RecoveryWrite(sub, env).Renew?)
  {}

  lemma ClosedRuns(s: Race, e: Event, a: nat)
    requires Enabled(s, e) && SameLoad(s, a) && !e.Load?
    ensures SameLoad(Next(s, e), a)
    ensures AllLoaded(s) && !IsClaim(s, e, a) && s.row.attempt == a ==> AllLoaded(Next(s, e))
  {
    if e.Step? {
      SteppedIs(s, e.run);
      forall x | x in Next(s, e).runs && x != e.run
        ensures x in s.runs && Next(s, e).runs[x] == s.runs[x]
      {
        OthersStay(s, Next(s, e), e.run, x);
      }
    }
  }

  /** Where the counter goes: up by a claim, to the number after a, or to 0. */
  lemma ClosedCounter(s: Race, e: Event, a: nat)
    requires Enabled(s, e) && SameLoad(s, a) && !e.Load? && (e.Other? ==> e.write.Cancel? || e.write.FlagCancel?)
    ensures var n := Next(s, e).row.attempt;
      if IsClaim(s, e, a) then n == a + 1
      else n == s.row.attempt
           || (e.Step? && Writing(s.runs[e.run]) && (n == a + 1 || (n == 0 && WritesRenewal(s.runs[e.run]))))
  {
    if e.Step? {
      var r := s.runs[e.run];
      SteppedIs(s, e.run);
      if Writing(r) { RecoveryWriteNumber(r.sub, r.env, s.row, s.trigger); }
    }
  }

  lemma ClosedStep(s: Race, e: Event, a: nat)
    requires Enabled(s, e) && SameLoad(s, a) && !e.Load? && (e.Other? ==> e.write.Cancel? || e.write.FlagCancel?)
    ensures SameLoad(Next(s, e), a)
    ensures a > 0 && (s.row.attempt == 0 || s.row.attempt == a + 1) ==>
      !IsClaim(s, e, a) && (Next(s, e).row.attempt == 0 || Next(s, e).row.attempt == a + 1)
    ensures AllLoaded(s) && s.row.attempt == a ==>
      if IsClaim(s, e, a) then Next(s, e).row.attempt == a + 1
      else AllLoaded(Next(s, e)) && Next(s, e).row.attempt == a
  {
    ClosedRuns(s, e, a);
    ClosedCounter(s, e, a);
  }

  lemma {:induction false} NoClaimAfterTheFirst(s: Race, es: seq<Event>, a: nat)
    requires CanRun(s, es) && SameLoad(s, a) && Closed(es) && a > 0
    requires s.row.attempt == 0 || s.row.attempt == a + 1
    ensures Claims(s, es, a) == 0
    decreases |es|
  {
    if es != [] {
      ClosedStep(s, es[0], a);
      NoClaimAfterTheFirst(Next(s, es[0]), es[1..], a);
    }
  }

  lemma {:induction false} OneClaim(s: Race, es: seq<Event>, a: nat)
    requires CanRun(s, es) && SameLoad(s, a) && AllLoaded(s) && Closed(es) && a > 0 && s.row.attempt == a
    ensures Claims(s, es, a) <= 1
    decreases |es|
  {
    if es != [] {
      ClosedStep(s, es[0], a);
      if IsClaim(s, es[0], a) {
        NoClaimAfterTheFirst(Next(s, es[0]), es[1..], a);
      } else {
        OneClaim(Next(s, es[0]), es[1..], a);
      }
    }
  }

  /** Renewals written by the runs. */
  function Renewals(s: Race, es: seq<Event>): nat
    requires CanRun(s, es)
    decreases |es|
  {
    if es == [] then 0
    else (if es[0].Step? && WritesRenewal(s.runs[es[0].run]) then 1 else 0) + Renewals(Next(s, es[0]), es[1..])
  }

  lemma {:induction false} LoweredByRenewals(s: Race, es: seq<Event>)
    requires CanRun(s, es) && SameLoad(s, 0) && Closed(es)
    ensures Lowerings(s, es, 0) <= Renewals(s, es)
    decreases |es|
  {
    if es != [] {
      ClosedRuns(s, es[0], 0);
      ClosedCounter(s, es[0], 0);
      LoweredByRenewals(Next(s, es[0]), es[1..]);
    }
  }

  lemma CallCarriesTheNumber(s: Race, e: Event, a: nat)
    requires Enabled(s, e) && SameLoad(s, a)
    ensures |Next(s, e).calls| - |s.calls| == ChargesOf(Next(s, e).calls, a) - ChargesOf(s.calls, a)
  {
    if e.Step? {
      SteppedIs(s, e.run);
      ChargesOfAppend(s.calls, CallOfRun(s.runs[e.run]), a);
    }
  }

  lemma {:induction false} CallsCarryTheNumber(s: Race, es: seq<Event>, a: nat)
    requires CanRun(s, es) && SameLoad(s, a) && Closed(es)
    ensures |After(s, es).calls| - |s.calls| == ChargesOf(After(s, es).calls, a) - ChargesOf(s.calls, a)
    decreases |es|
  {
    if es != [] {
      ClosedRuns(s, es[0], a);
      CallCarriesTheNumber(s, es[0], a);
      CallsCarryTheNumber(Next(s, es[0]), es[1..], a);
    }
  }

  /** However retries that loaded one row interleave, with cancellations, they charge
      at most once when it had used an attempt, and otherwise at most once more than
      they renewed it. */
  lemma ClaimsExcludeEachOther(s: Race, es: seq<Event>)
    requires CanRun(s, es) && SameLoad(s, s.row.attempt) && AllLoaded(s) && Closed(es)
    ensures |After(s, es).calls| - |s.calls| <= if s.row.attempt > 0 then 1 else 1 + Renewals(s, es)
  {
    var a := s.row.attempt;
    assert Winners(s, a) == {};
    ChargesPerClaim(s, es, a);
    CallsCarryTheNumber(s, es, a);
    if a > 0 {
      OneClaim(s, es, a);
    } else {
      ClaimsPerLowering(s, es, 0);
      LoweredByRenewals(s, es);
    }
  }

  // ------------------------------------------------------------------
  // Cancellations anywhere in a race
  // ------------------------------------------------------------------

  /** A run writes its result, the one write of a retry that sets the status. */
  predicate IsResult(s: Race, e: Event) { e.Step? && e.run in s.runs && Writing(s.runs[e.run]) }

  /** From outside come cancellations and writes that leave the status alone. */
  predicate Cancellations(es: seq<Event>) {
    forall i :: 0 <= i < |es| && es[i].Other? ==>
      es[i].write.Cancel? || es[i].write.FlagCancel? || es[i].write.SetToken? || es[i].write.SetRail?
  }

  predicate NoResult(s: Race, es: seq<Event>)
    requires CanRun(s, es)
    decreases |es|
  {
    es == [] || (!IsResult(s, es[0]) && NoResult(Next(s, es[0]), es[1..]))
  }

  /** Some cancellation is followed by no result. */
  predicate CancelledLast(s: Race, es: seq<Event>)
    requires CanRun(s, es)
    decreases |es|
  {
    es != []
    && ((es[0] == Other(Cancel) && NoResult(Next(s, es[0]), es[1..])) || CancelledLast(Next(s, es[0]), es[1..]))
  }

  lemma ResultStatus(sub: Row, env: Env, r: Row, trigger: bool)
    requires !RecoveryAnswer(sub, env).InfraError?
    ensures Written(r, RecoveryWrite(sub, env), trigger).status != Cancelled
  {
    RecoveryWriteIs(sub, env);
    LastWriteIs(r, RecoveryWrite(sub, env), trigger);
  }

  lemma SteppedStatus(s: Race, w: nat)
    requires w in s.runs
    ensures var t := Stepped(s, w);
      if Writing(s.runs[w]) then t.row.status != Cancelled else t.row.status == s.row.status
  {
    if Writing(s.runs[w]) { ResultStatus(s.runs[w].sub, s.runs[w].env, s.row, s.trigger); }
  }

  /** What an event does to being cancelled. */
  lemma EventStatus(s: Race, e: Event)
    requires Enabled(s, e) && Cancellations([e])
    ensures Next(s, e).row.status == Cancelled <==>
      e == Other(Cancel) || (s.row.status == Cancelled && !IsResult(s, e))
  {
    assert [e][0] == e;
    if e.Step? { SteppedStatus(s, e.run); }
  }

  /** Over every interleaving of retries with cancellations, wherever they land, the row
      ends CANCELLED exactly when some cancellation comes after every result, or it was
      CANCELLED before and no run wrote a result at all. */
  lemma {:induction false} CancelSurvivesExactlyWhen(s: Race, es: seq<Event>)
    requires CanRun(s, es) && Cancellations(es)
    ensures After(s, es).row.status == Cancelled <==>
      CancelledLast(s, es) || (s.row.status == Cancelled && NoResult(s, es))
    decreases |es|
  {
    if es != [] {
      assert Cancellations([es[0]]);
      EventStatus(s, es[0]);
      CancelSurvivesExactlyWhen(Next(s, es[0]), es[1..]);
    }
  }

  // ------------------------------------------------------------------
  // Both bounds are reached
  // ------------------------------------------------------------------

  lemma {:induction false} Chain(s: Race, es: seq<Event>, more: seq<Event>)
    requires CanRun(s, es) && CanRun(After(s, es), more)
    ensures CanRun(s, es + more) && After(s, es + more) == After(After(s, es), more)
    decreases |es|
  {
    if es == [] {
      assert es + more == more;
    } else {
      Chain(Next(s, es[0]), es[1..], more);
      assert (es + more)[1..] == es[1..] + more;
    }
  }

  lemma One(s: Race, e: Event)
    requires Enabled(s, e)
    ensures CanRun(s, [e]) && After(s, [e]) == Next(s, e)
  {
    assert [e][1..] == [];
  }

  /** A run loads the row, claims and charges. */
  lemma LoadAndCharge(s: Race, w: nat, env: Env) returns (es: seq<Event>)
    requires w !in s.runs && RetryApplies(s.row) && RecoveryRail(s.row, env) != Manual && !env.answer.InfraError?
    ensures CanRun(s, es)
    ensures var t := After(s, es);
      && t.row == Written(s.row, ClaimAttempt(s.row.attempt), s.trigger)
      && t.calls == s.calls + [RecoveryCall(s.row, RecoveryRail(s.row, env), s.row.attempt + 1, env)]
      && t.runs == s.runs[w := Retry(s.row, env, Charged)] && t.trigger == s.trigger
  {
    var load, step := Load(w, env), Step(w);
    var s1 := Next(s, load);
    var s2 := Next(s1, step);
    One(s, load);
    One(s1, step);
    One(s2, step);
    Chain(s, [load], [step]);
    Chain(s, [load] + [step], [step]);
    es := [load] + [step] + [step];
  }

  /** A run that charged notes its rail and writes its result. */
  lemma Finish(s: Race, w: nat) returns (es: seq<Event>)
    requires w in s.runs && s.runs[w].point == Charged && !RecoveryAnswer(s.runs[w].sub, s.runs[w].env).InfraError?
    ensures CanRun(s, es)
    ensures var t, r := After(s, es), s.runs[w];
      && t.row == Written(Written(s.row, SetRail(RecoveryRail(r.sub, r.env)), s.trigger),
                          RecoveryWrite(r.sub, r.env), s.trigger)
      && t.calls == s.calls && t.runs == s.runs - {w} && t.trigger == s.trigger
  {
    var step := Step(w);
    One(s, step);
    One(Next(s, step), step);
    Chain(s, [step], [step]);
    es := [step] + [step];
  }

  predicate KeyRepeats(s: Race, id: string, rail: Rail, number: nat) {
    exists i, j :: 0 <= i < j < |s.calls| && s.calls[i].ref == s.calls[j].ref == RetryKey(rail, id, number)
  }

  /** Two runs, the second loading the row the first has claimed, both charge; then
      the first writes its result, and with it the number the second has passed. */
  lemma FirstFinishesLast(s: Race, env: Env, next: Row) returns (es: seq<Event>)
    requires s.runs == map[] && s.calls == [] && next == s.row.(attempt := s.row.attempt + 1)
    requires RetryApplies(s.row) && RecoveryAnswer(s.row, env).Declined? && RecoveryWrite(s.row, env).SetDunning?
    requires RecoveryRail(s.row, env) != Manual && RecoveryRail(next, env) != Manual
    ensures CanRun(s, es)
    ensures var t := After(s, es);
      && RetryApplies(t.row) && t.row.attempt == next.attempt && t.row.id == s.row.id
      && t.row.token == s.row.token && t.row.mandate == s.row.mandate && 2 !in t.runs
      && |t.calls| == 2 && t.calls[1].ref == RetryKey(RecoveryRail(next, env), s.row.id, next.attempt + 1)
  {
    RecoveryWriteNumber(s.row, env, s.row, s.trigger);
    var first := LoadAndCharge(s, 0, env);
    var s1 := After(s, first);
    SameRail(s1.row, next, env);
    var second := LoadAndCharge(s1, 1, env);
    var s2 := After(s1, second);
    var back := Finish(s2, 0);
    DunningWrite(s2.row, s.row, env, s.trigger);
    Chain(s, first, second);
    Chain(s, first + second, back);
    es := first + second + back;
  }

  lemma DunningWrite(r: Row, sub: Row, env: Env, trigger: bool)
    requires RetryApplies(sub) && !RecoveryAnswer(sub, env).InfraError? && RecoveryWrite(sub, env).SetDunning?
    requires !r.cancelAtPeriodEnd
    ensures var t := Written(Written(r, SetRail(RecoveryRail(sub, env)), trigger), RecoveryWrite(sub, env), trigger);
      RetryApplies(t) && t.attempt == sub.attempt + 1 && t.id == r.id && t.token == r.token && t.mandate == r.mandate
  {}

  /** The absolute attempt number: a first run charges; a second one loads the claimed
      row and charges the next number; the first writes back its own number, below
      that; and a third run charges the second one's number, under the same key. */
  lemma AbsoluteNumberRepeatsAKey(row: Row, env: Env, trigger: bool)
    requires RetryApplies(row) && RecoveryAnswer(row, env).Declined? && RecoveryWrite(row, env).SetDunning?
    requires RecoveryRail(row, env) != Manual && RecoveryRail(row.(attempt := row.attempt + 1), env) != Manual
    ensures exists es ::
      CanRun(Race(row, [], map[], trigger), es)
      && KeyRepeats(After(Race(row, [], map[], trigger), es), row.id,
                    RecoveryRail(row.(attempt := row.attempt + 1), env), row.attempt + 2)
  {
    var s, next := Race(row, [], map[], trigger), row.(attempt := row.attempt + 1);
    var es := FirstFinishesLast(s, env, next);
    var t := After(s, es);
    SameRail(t.row, next, env);
    var third := LoadAndCharge(t, 2, env);
    Chain(s, es, third);
    var u := After(t, third);
    assert u.calls[1].ref == u.calls[2].ref == RetryKey(RecoveryRail(next, env), row.id, row.attempt + 2);
  }

  /** The rail depends on the counter and the means, not on what else was written. */
  lemma SameRail(a: Row, b: Row, env: Env)
    requires a.token == b.token && a.mandate == b.mandate && a.attempt == b.attempt
    ensures RecoveryRail(a, env) == RecoveryRail(b, env)
  {}

  lemma RenewalWrite(r: Row, sub: Row, env: Env, trigger: bool)
    requires RecoveryAnswer(sub, env) == Success
    ensures Written(Written(r, SetRail(RecoveryRail(sub, env)), trigger), RecoveryWrite(sub, env), trigger).attempt == 0
  {}

  /** A run that loads, charges and renews beside another that only has loaded. */
  lemma ChargeAndRenew(s: Race, w: nat, env: Env) returns (es: seq<Event>)
    requires w !in s.runs && RetryApplies(s.row) && RecoveryAnswer(s.row, env) == Success
    ensures CanRun(s, es)
    ensures var t := After(s, es);
      && t.runs == s.runs && t.row.attempt == 0
      && t.calls == s.calls + [RecoveryCall(s.row, RecoveryRail(s.row, env), s.row.attempt + 1, env)]
  {
    var charge := LoadAndCharge(s, w, env);
    var s1 := After(s, charge);
    var renew := Finish(s1, w);
    RenewalWrite(s1.row, s.row, env, s.trigger);
    Chain(s, charge, renew);
    es := charge + renew;
    assert s1.runs - {w} == s.runs;
  }

  /** One run loads the row and waits while another charges and renews. */
  lemma RenewedMeanwhile(s: Race, env: Env) returns (es: seq<Event>)
    requires s.runs == map[] && s.calls == [] && RetryApplies(s.row) && RecoveryAnswer(s.row, env) == Success
    ensures CanRun(s, es)
    ensures var t := After(s, es);
      && t.runs == map[1 := Retry(s.row, env, Loaded)] && t.row.attempt == 0
      && t.calls == [RecoveryCall(s.row, RecoveryRail(s.row, env), s.row.attempt + 1, env)]
  {
    var load := Load(1, env);
    One(s, load);
    var rest := ChargeAndRenew(Next(s, load), 0, env);
    Chain(s, [load], rest);
    es := [load] + rest;
  }

  /** Claims and charges by a run that has loaded. */
  lemma ClaimAndCharge(s: Race, w: nat) returns (es: seq<Event>)
    requires w in s.runs && s.runs[w].point == Loaded && s.row.attempt == s.runs[w].sub.attempt
    requires RecoveryRail(s.runs[w].sub, s.runs[w].env) != Manual
    ensures CanRun(s, es) && After(s, es).calls == s.calls + [CallOfRun(s.runs[w])]
  {
    var step := Step(w);
    One(s, step);
    One(Next(s, step), step);
    Chain(s, [step], [step]);
    es := [step] + [step];
  }

  lemma RecoveryRef(sub: Row, rail: Rail, number: nat, env: Env)
    requires rail != Manual
    ensures RecoveryCall(sub, rail, number, env).ref == RetryKey(rail, sub.id, number)
  {}

  lemma ChargedTwice(s: Race, env: Env) returns (es: seq<Event>)
    requires s.runs == map[] && s.calls == [] && s.row.attempt == 0
    requires RetryApplies(s.row) && RecoveryAnswer(s.row, env) == Success
    ensures CanRun(s, es)
    ensures var call := RecoveryCall(s.row, RecoveryRail(s.row, env), 1, env);
      After(s, es).calls == [call, call]
  {
    var first := RenewedMeanwhile(s, env);
    var t := After(s, first);
    var second := ClaimAndCharge(t, 1);
    Chain(s, first, second);
    es := first + second;
  }

  /** Renewal: a first run charges and renews, which puts the counter back to 0, where
      a run that loaded attempt 0 still expects it; that one charges too. */
  lemma RenewalLetsASecondCharge(row: Row, env: Env, trigger: bool)
    requires RetryApplies(row) && row.attempt == 0 && RecoveryAnswer(row, env) == Success
    ensures exists es ::
      CanRun(Race(row, [], map[], trigger), es)
      && KeyRepeats(After(Race(row, [], map[], trigger), es), row.id, RecoveryRail(row, env), 1)
  {
    var s := Race(row, [], map[], trigger);
    var es := ChargedTwice(s, env);
    var call := RecoveryCall(row, RecoveryRail(row, env), 1, env);
    RecoveryRef(row, RecoveryRail(row, env), 1, env);
    assert After(s, es).calls[0] == call && After(s, es).calls[1] == call;
  }
}
