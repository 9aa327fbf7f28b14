/** Touches of several workers whose commands come apart: each reads the record and the
    time it has left, and writes the record back for that time later on, whatever has
    happened to the session since. */
module Touches {
  import opened Sessions

  /** A record read and not yet written back.  `out` is history: whether since the read
      some command took the id out of the index. */
  datatype Pending = Pending(id: string, record: Record, left: int, out: bool)

  datatype World = World(store: Store, pending: map<nat, Pending>)

  datatype Move =
    | Do(command: Command)
    | Read(worker: nat, id: string)
    | Write(worker: nat)

  /** A move and the second at which it is made. */
  datatype Step = Step(now: int, move: Move)

  /** The commands that take an id out of the index: its revocation, a listing that finds
      its key gone, and the next session created once the index has expired. */
  predicate TakesOut(s: Store, now: int, c: Command, id: string) {
    match c
    case Revoke(x) => x == id
    case List => now < s.indexExpiresAt && !IsLive(s, id, now)
    case Create(x, _, _, _) => x != id && now >= s.indexExpiresAt
    case Touch(_) => false
  }

  function Noted(p: Pending, s: Store, now: int, c: Command): Pending {
    p.(out := (p.out || TakesOut(s, now, c, p.id)) && !(c.Create? && c.id == p.id))
  }

  function Written(s: Store, p: Pending, now: int): Store {
    s.(sessions := s.sessions[p.id := Stored(p.record.(lastSeen := now), now + p.left)])
  }

  function Next(w: World, e: Step): World {
    match e.move
    case Do(c) =>
      World(Sessions.Next(w.store, Event(e.now, c)),
            map v | v in w.pending :: Noted(w.pending[v], w.store, e.now, c))
    case Read(v, id) =>
      if IsLive(w.store, id, e.now) then
        var stored := w.store.sessions[id];
        w.(pending := w.pending[v := Pending(id, stored.record, stored.expiresAt - e.now, false)])
      else w
    case Write(v) =>
      if v in w.pending then World(Written(w.store, w.pending[v], e.now), w.pending - {v}) else w
  }

  function Run(w: World, es: seq<Step>): World
    decreases |es|
  {
    if es == [] then w else Run(Next(w, es[0]), es[1..])
  }

  predicate Ordered(es: seq<Step>, start: int) {
    es == [] || (start <= es[0].now && Ordered(es[1..], es[0].now))
  }

  predicate CommonTtl(es: seq<Step>, ttl: int) {
    forall i :: 0 <= i < |es| && es[i].move.Do? && es[i].move.command.Create? ==> es[i].move.command.ttl == ttl
  }

  /** With nothing in between, a read and its write are the touch as one step. */
  lemma UndisturbedTouch(w: World, v: nat, id: string, now: int)
    requires v !in w.pending
    ensures Run(w, [Step(now, Read(v, id)), Step(now, Write(v))])
            == w.(store := Sessions.Next(w.store, Event(now, Touch(id))))
  {
    var read, write := Step(now, Read(v, id)), Step(now, Write(v));
    assert [read, write][1..] == [write] && [write][1..] == [];
    assert Run(w, [read, write]) == Run(Next(w, read), [write]);
    assert Run(Next(w, read), [write]) == Run(Next(Next(w, read), write), []);
    if IsLive(w.store, id, now) { assert Next(w, read).pending - {v} == w.pending; }
  }

  // ------------------------------------------------------------------
  // When the index stays complete
  // ------------------------------------------------------------------

  /** A write strays when its id has been taken out of the index since the read, or when
      the session now outlasts the index. */
  predicate Strays(w: World, e: Step) {
    && e.move.Write? && e.move.worker in w.pending
    && var p := w.pending[e.move.worker];
       p.out || e.now + p.left > w.store.indexExpiresAt
  }

  predicate SomeStrays(w: World, es: seq<Step>)
    decreases |es|
  {
    es != [] && (Strays(w, es[0]) || SomeStrays(Next(w, es[0]), es[1..]))
  }

  /** The index is complete after every step. */
  predicate AlwaysIndexed(w: World, es: seq<Step>)
    decreases |es|
  {
    es == [] || (Indexed(Next(w, es[0]).store, es[0].now) && AlwaysIndexed(Next(w, es[0]), es[1..]))
  }

  predicate ReadsFit(w: World, ttl: int) {
    forall v :: v in w.pending ==>
      0 < w.pending[v].left <= ttl && (w.pending[v].out <==> w.pending[v].id !in w.store.index)
  }

  predicate Fits(w: World, now: int, ttl: int) {
    Indexed(w.store, now) && BoundedLife(w.store, now, ttl) && ReadsFit(w, ttl)
  }

  lemma NotedFits(s: Store, p: Pending, now: int, c: Command)
    requires p.out <==> p.id !in s.index
    ensures var q := Noted(p, s, now, c);
      q.id == p.id && q.left == p.left && (q.out <==> q.id !in Sessions.Next(s, Event(now, c)).index)
  {}

  lemma DoFits(w: World, e: Step, start: int, ttl: int)
    requires Fits(w, start, ttl) && start <= e.now && e.move.Do?
    requires e.move.command.Create? ==> e.move.command.ttl == ttl
    ensures Fits(Next(w, e), e.now, ttl)
  {
    var c := e.move.command;
    StepIsIndexed(w.store, Event(e.now, c), start, ttl);
    forall v | v in w.pending
      ensures Next(w, e).pending[v] == Noted(w.pending[v], w.store, e.now, c)
      ensures 0 < Next(w, e).pending[v].left <= ttl
      ensures Next(w, e).pending[v].out <==> Next(w, e).pending[v].id !in Next(w, e).store.index
    {
      NotedFits(w.store, w.pending[v], e.now, c);
    }
  }

  lemma ReadFits(w: World, e: Step, start: int, ttl: int)
    requires Fits(w, start, ttl) && start <= e.now && e.move.Read?
    ensures Fits(Next(w, e), e.now, ttl)
  {
    StepIsIndexed(w.store, Event(e.now, Touch(e.move.id)), start, ttl);
    assert Indexed(w.store, e.now) && BoundedLife(w.store, e.now, ttl) by {
      assert forall id :: IsLive(w.store, id, e.now) ==> IsLive(w.store, id, start);
    }
  }

  /** Of an indexed store, a write leaves an indexed store exactly when it does not
      stray. */
  lemma WriteKeepsIndexedExactlyWhen(w: World, e: Step, start: int, ttl: int)
    requires Fits(w, start, ttl) && start <= e.now && e.move.Write?
    ensures Indexed(Next(w, e).store, e.now) <==> !Strays(w, e)
    ensures !Strays(w, e) ==> Fits(Next(w, e), e.now, ttl)
  {
    var s, t := w.store, Next(w, e).store;
    assert forall id :: IsLive(s, id, e.now) ==> IsLive(s, id, start);
    if e.move.worker in w.pending {
      var p := w.pending[e.move.worker];
      assert IsLive(t, p.id, e.now);
      assert forall id :: id != p.id ==> (IsLive(t, id, e.now) <==> IsLive(s, id, e.now));
    }
  }

  lemma StepFits(w: World, e: Step, start: int, ttl: int)
    requires Fits(w, start, ttl) && start <= e.now
    requires e.move.Do? && e.move.command.Create? ==> e.move.command.ttl == ttl
    ensures Indexed(Next(w, e).store, e.now) <==> !Strays(w, e)
    ensures !Strays(w, e) ==> Fits(Next(w, e), e.now, ttl)
  {
    match e.move
    case Do(_) => DoFits(w, e, start, ttl);
    case Read(_, _) => ReadFits(w, e, start, ttl);
    case Write(_) => WriteKeepsIndexedExactlyWhen(w, e, start, ttl);
  }

  /** Main result: over every run of commands, reads and writes under one ttl, the index
      stays complete after every step exactly when no write strays. */
  lemma {:induction false} StaysIndexedExactlyWhen(w: World, es: seq<Step>, start: int, ttl: int)
    requires Fits(w, start, ttl) && Ordered(es, start) && CommonTtl(es, ttl)
    ensures AlwaysIndexed(w, es) <==> !SomeStrays(w, es)
    decreases |es|
  {
    if es != [] {
      var e, u := es[0], Next(w, es[0]);
      StepFits(w, e, start, ttl);
      if !Strays(w, e) { StaysIndexedExactlyWhen(u, es[1..], e.now, ttl); }
    }
  }

  /** A revocation between the read and the write is undone: the session is live again,
      for as long as it had left, and missing from the index. */
  lemma TouchUndoesARevocation(w: World, v: nat, id: string, readAt: int, revokedAt: int, now: int, later: int)
    requires IsLive(w.store, id, readAt) && now <= later
    ensures var es := [Step(readAt, Read(v, id)), Step(revokedAt, Do(Revoke(id))), Step(now, Write(v))];
      var t := Run(w, es).store;
      && SomeStrays(w, es)
      && (IsLive(t, id, later) <==> later - now < w.store.sessions[id].expiresAt - readAt)
      && id !in t.index && id !in Members(t, later)
  {
    var read, revoke, write := Step(readAt, Read(v, id)), Step(revokedAt, Do(Revoke(id))), Step(now, Write(v));
    assert [read, revoke, write][1..] == [revoke, write] && [revoke, write][1..] == [write] && [write][1..] == [];
    var w1 := Next(w, read);
    var w2 := Next(w1, revoke);
    assert w2.pending[v].out && w2.pending[v].id == id && id !in w2.store.index;
    assert Run(w, [read, revoke, write]) == Run(w1, [revoke, write]);
    assert Run(w1, [revoke, write]) == Run(w2, [write]);
    assert Run(w2, [write]) == Run(Next(w2, write), []);
    assert Strays(w2, write) && SomeStrays(w2, [write]) && SomeStrays(w1, [revoke, write]);
  }
}
