/** The Redis session index of one tenant: session keys that expire, and a set of
    session ids that expires as a whole.  Times are whole seconds on one clock that
    does not go back; each command or transaction is atomic. */
module Sessions {
  import opened Ordering

  datatype Record = Record(ip: string, agent: string, createdAt: int, lastSeen: int)

  datatype Stored = Stored(record: Record, expiresAt: int)

  datatype Session = Session(id: string, record: Record)

  datatype Store = Store(sessions: map<string, Stored>, index: set<string>, indexExpiresAt: int)

  const EMPTY := Store(map[], {}, 0)

  /** GET and EXISTS see a key until it expires. */
  predicate IsLive(s: Store, id: string, now: int) { id in s.sessions && now < s.sessions[id].expiresAt }

  function Live(s: Store, now: int): set<string> { set id | id in s.sessions && IsLive(s, id, now) }

  /** SMEMBERS: an expired set reads as empty. */
  function Members(s: Store, now: int): set<string> { if now < s.indexExpiresAt then s.index else {} }

  /** SET with a ttl, SADD, EXPIRE in one transaction. */
  function Created(s: Store, now: int, id: string, ip: string, agent: string, ttl: int): Store {
    Store(s.sessions[id := Stored(Record(ip, agent, now, now), now + ttl)], Members(s, now) + {id}, now + ttl)
  }

  /** GET, then SET again with the remaining ttl. */
  function Touched(s: Store, now: int, id: string): Store {
    if IsLive(s, id, now) then
      var stored := s.sessions[id];
      s.(sessions := s.sessions[id := stored.(record := stored.record.(lastSeen := now))])
    else s
  }

  /** DEL and SREM. */
  function Revoked(s: Store, id: string): Store { s.(sessions := s.sessions - {id}, index := s.index - {id}) }

  /** What a listing leaves: ids whose key is gone are pruned from a live index. */
  function Pruned(s: Store, now: int): Store {
    if now < s.indexExpiresAt then s.(index := s.index * Live(s, now)) else s
  }

  predicate Shows(result: seq<Session>, id: string) { exists i :: 0 <= i < |result| && result[i].id == id }

  /** The listing is of exactly these sessions, each once, latest seen first. */
  ghost predicate Lists(result: seq<Session>, s: Store, ids: set<string>) {
    && (forall i :: 0 <= i < |result| ==>
          result[i].id in ids && result[i].id in s.sessions && result[i].record == s.sessions[result[i].id].record)
    && (forall id :: id in ids ==> Shows(result, id))
    && (forall i, j :: 0 <= i < j < |result| ==> result[i].id != result[j].id)
    && (forall i, j :: 0 <= i < j < |result| ==> result[i].record.lastSeen >= result[j].record.lastSeen)
  }

  function LastSeen(): Session -> int { (x: Session) => x.record.lastSeen }

  class TokenStore {
    var sessions: map<string, Stored>
    var index: set<string>
    var indexExpiresAt: int

    constructor ()
      ensures State() == EMPTY
    {
      sessions, index, indexExpiresAt := map[], {}, 0;
    }

    function State(): Store
      reads this
    {
      Store(sessions, index, indexExpiresAt)
    }

    method Create(now: int, id: string, ip: string, agent: string, ttl: int)
      modifies this
      ensures State() == Created(old(State()), now, id, ip, agent, ttl)
    {
      sessions := sessions[id := Stored(Record(ip, agent, now, now), now + ttl)];
      if now >= indexExpiresAt { index := {}; }
      index := index + {id};
      indexExpiresAt := now + ttl;
    }

    method Touch(now: int, id: string) returns (found: bool)
      modifies this
      ensures found == old(IsLive(State(), id, now))
      ensures State() == Touched(old(State()), now, id)
    {
      if id !in sessions || now >= sessions[id].expiresAt { return false; }
      var record := sessions[id].record.(lastSeen := now);
      var ttl := sessions[id].expiresAt - now;
      if ttl <= 0 { return true; }
      sessions := sessions[id := Stored(record, now + ttl)];
      found := true;
    }

    method IsActive(now: int, id: string) returns (active: bool)
      ensures active == IsLive(State(), id, now)
    {
      active := id in sessions && now < sessions[id].expiresAt;
    }

    method RevokeSession(id: string)
      modifies this
      ensures State() == Revoked(old(State()), id)
    {
      sessions := sessions - {id};
      index := index - {id};
    }

    /** Reads every indexed key, pruning ids that are gone, and sorts the rest. */
    method List(now: int) returns (result: seq<Session>)
      modifies this`index
      ensures State() == Pruned(old(State()), now)
      ensures Lists(result, State(), Members(old(State()), now) * Live(State(), now))
    {
      ghost var before := State();
      var ids := if now < indexExpiresAt then index else {};
      ghost var all := ids;
      var found := [];
      while ids != {}
        invariant sessions == before.sessions && indexExpiresAt == before.indexExpiresAt
        invariant Reading(found, index, before, now, all, ids)
        decreases |ids|
      {
        var id :| id in ids;
        OneMoreRead(found, index, before, now, all, ids, id);
        if id in sessions && now < sessions[id].expiresAt {
          found := found + [Session(id, sessions[id].record)];
        } else {
          index := index - {id};
        }
        ids := ids - {id};
      }
      result := SortedDescending(found, LastSeen());
      AllRead(found, index, before, now, all);
    }
  }

  /** Inside the listing loop, with `ids` still to read: what was read and is live
      has been collected, what is not has left the index. */
  ghost predicate Reading(found: seq<Session>, index: set<string>, s: Store, now: int, all: set<string>,
                          ids: set<string>)
  {
    && ids <= all
    && index == s.index - ((all - ids) - Live(s, now))
    && Collected(found, s, (all - ids) * Live(s, now))
  }

  lemma OneMoreRead(found: seq<Session>, index: set<string>, s: Store, now: int, all: set<string>,
                    ids: set<string>, id: string)
    requires Reading(found, index, s, now, all, ids) && id in ids
    ensures if IsLive(s, id, now)
            then Reading(found + [Session(id, s.sessions[id].record)], index, s, now, all, ids - {id})
            else Reading(found, index - {id}, s, now, all, ids - {id})
  {
    var good := Live(s, now);
    OneIdLess(all, ids, good, id);
    if id in good { OneMoreCollected(found, s, (all - ids) * good, id); }
  }

  lemma AllRead(found: seq<Session>, index: set<string>, s: Store, now: int, all: set<string>)
    requires Reading(found, index, s, now, all, {}) && all == Members(s, now)
    ensures s.(index := index) == Pruned(s, now)
    ensures Lists(SortedDescending(found, LastSeen()), s, Members(s, now) * Live(s, now))
    ensures Lists(SortedDescending(found, LastSeen()), s.(index := index),
                  Members(s, now) * Live(s.(index := index), now))
  {
    assert all - {} == all;
    assert Live(s.(index := index), now) == Live(s, now);
    CollectedIsListed(found, s, all * Live(s, now));
  }

  lemma OneIdLess(all: set<string>, ids: set<string>, good: set<string>, id: string)
    requires id in ids && ids <= all
    ensures (all - (ids - {id})) * good == (all - ids) * good + (if id in good then {id} else {})
    ensures (all - (ids - {id})) - good == ((all - ids) - good) + (if id in good then {} else {id})
    ensures id !in (all - ids) * good
  {}

  /** The listing before it is sorted. */
  ghost predicate Collected(found: seq<Session>, s: Store, ids: set<string>) {
    && (forall i :: 0 <= i < |found| ==>
          found[i].id in ids && found[i].id in s.sessions && found[i].record == s.sessions[found[i].id].record)
    && (forall id :: id in ids ==> Shows(found, id))
    && (forall i, j :: 0 <= i < j < |found| ==> found[i].id != found[j].id)
  }

  lemma OneMoreCollected(found: seq<Session>, s: Store, ids: set<string>, id: string)
    requires Collected(found, s, ids) && id in s.sessions && id !in ids
    ensures Collected(found + [Session(id, s.sessions[id].record)], s, ids + {id})
  {
    var more := found + [Session(id, s.sessions[id].record)];
    assert more[|found|].id == id;
    forall other | other in ids
      ensures Shows(more, other)
    {
      var i :| 0 <= i < |found| && found[i].id == other;
      assert more[i].id == other;
    }
  }

  function IdOf(): Session -> string { (x: Session) => x.id }

  lemma ShowsTheSame(found: seq<Session>, r: seq<Session>, id: string)
    requires multiset(found) == multiset(r) && Shows(found, id)
    ensures Shows(r, id)
  {
    SameElements(found, r);
    var i :| 0 <= i < |found| && found[i].id == id;
    var k :| 0 <= k < |r| && r[k] == found[i];
  }

  lemma CollectedIsListed(found: seq<Session>, s: Store, ids: set<string>)
    requires Collected(found, s, ids)
    ensures Lists(SortedDescending(found, LastSeen()), s, ids)
  {
    var r := SortedDescending(found, LastSeen());
    SortsAndPermutes(found, LastSeen());
    SameElements(r, found);
    assert Distinct(found, IdOf());
    PermutingKeepsDistinct(found, r, IdOf());
    forall id | id in ids
      ensures Shows(r, id)
    {
      ShowsTheSame(found, r, id);
    }
    assert forall i, j :: 0 <= i < j < |r| ==> LastSeen()(r[i]) >= LastSeen()(r[j]) && IdOf()(r[i]) != IdOf()(r[j]);
  }

  // ------------------------------------------------------------------
  // The index over whole runs
  // ------------------------------------------------------------------

  datatype Command =
    | Create(id: string, ip: string, agent: string, ttl: int)
    | Touch(id: string)
    | Revoke(id: string)
    | List

  /** A command and the second at which it runs. */
  datatype Event = Event(now: int, command: Command)

  function Next(s: Store, e: Event): Store {
    match e.command
    case Create(id, ip, agent, ttl) => Created(s, e.now, id, ip, agent, ttl)
    case Touch(id) => Touched(s, e.now, id)
    case Revoke(id) => Revoked(s, id)
    case List => Pruned(s, e.now)
  }

  function Run(s: Store, es: seq<Event>): Store
    decreases |es|
  {
    if es == [] then s else Run(Next(s, es[0]), es[1..])
  }

  predicate Ordered(es: seq<Event>, start: int) {
    es == [] || (start <= es[0].now && Ordered(es[1..], es[0].now))
  }

  function End(es: seq<Event>, start: int): int { if es == [] then start else es[|es| - 1].now }

  predicate CommonTtl(es: seq<Event>, ttl: int) {
    forall i :: 0 <= i < |es| && es[i].command.Create? ==> es[i].command.ttl == ttl
  }

  /** Every session that is live at `now` or later stays in the index as long as it
      lives, and every live index holds it. */
  predicate Indexed(s: Store, now: int) {
    forall id :: id in s.sessions && IsLive(s, id, now) ==>
      id in s.index && s.sessions[id].expiresAt <= s.indexExpiresAt
  }

  predicate BoundedLife(s: Store, now: int, ttl: int) {
    forall id :: id in s.sessions ==> s.sessions[id].expiresAt <= now + ttl
  }

  lemma StepIsIndexed(s: Store, e: Event, start: int, ttl: int)
    requires Indexed(s, start) && BoundedLife(s, start, ttl) && start <= e.now
    requires e.command.Create? ==> e.command.ttl == ttl
    ensures Indexed(Next(s, e), e.now) && BoundedLife(Next(s, e), e.now, ttl)
  {
    if e.command.Create? {
      var t := Next(s, e);
      forall id | id in t.sessions && IsLive(t, id, e.now)
        ensures id in t.index && t.sessions[id].expiresAt <= t.indexExpiresAt
      {
        if id != e.command.id { assert IsLive(s, id, start); }
      }
    } else {
      assert forall id :: id in s.sessions && IsLive(s, id, e.now) ==> IsLive(s, id, start);
    }
  }

  lemma {:induction false} RunsAreIndexed(s: Store, es: seq<Event>, start: int, ttl: int)
    requires Indexed(s, start) && BoundedLife(s, start, ttl) && Ordered(es, start) && CommonTtl(es, ttl)
    ensures Indexed(Run(s, es), End(es, start))
    decreases |es|
  {
    if es != [] {
      StepIsIndexed(s, es[0], start, ttl);
      RunsAreIndexed(Next(s, es[0]), es[1..], es[0].now, ttl);
    }
  }

  /** An indexed store lists its live sessions exactly, now and at any later second,
      and listing leaves the index equal to them. */
  lemma IndexedListsTheLive(s: Store, start: int, now: int)
    requires Indexed(s, start) && start <= now
    ensures Members(s, now) * Live(s, now) == Live(s, now)
    ensures Members(Pruned(s, now), now) == Live(s, now) && Live(Pruned(s, now), now) == Live(s, now)
  {
    assert forall id :: id in s.sessions && IsLive(s, id, now) ==> IsLive(s, id, start);
    assert Live(Pruned(s, now), now) == Live(s, now);
  }

  // ---- against a plain map with expiry times ----

  function PlainNext(m: map<string, Stored>, e: Event): map<string, Stored> {
    match e.command
    case Create(id, ip, agent, ttl) => m[id := Stored(Record(ip, agent, e.now, e.now), e.now + ttl)]
    case Touch(id) =>
      if id in m && e.now < m[id].expiresAt then m[id := m[id].(record := m[id].record.(lastSeen := e.now))] else m
    case Revoke(id) => m - {id}
    case List => m
  }

  function PlainRun(m: map<string, Stored>, es: seq<Event>): map<string, Stored>
    decreases |es|
  {
    if es == [] then m else PlainRun(PlainNext(m, es[0]), es[1..])
  }

  function PlainLive(m: map<string, Stored>, now: int): set<string> { set id | id in m && now < m[id].expiresAt }

  lemma {:induction false} SessionsArePlain(s: Store, es: seq<Event>)
    ensures Run(s, es).sessions == PlainRun(s.sessions, es)
    decreases |es|
  {
    if es != [] { SessionsArePlain(Next(s, es[0]), es[1..]); }
  }

  /** Main result: with one positive ttl for all sessions, after every run of commands a
      listing at any later second shows exactly the sessions a plain map of
      expiring records holds, and leaves the index equal to them. */
  lemma ListingRefinesAPlainMap(es: seq<Event>, start: int, ttl: int, now: int)
    requires ttl > 0 && Ordered(es, start) && CommonTtl(es, ttl) && End(es, start) <= now
    ensures var s, m := Run(EMPTY, es), PlainRun(map[], es);
      && s.sessions == m
      && Members(s, now) * Live(s, now) == PlainLive(m, now)
      && Members(Pruned(s, now), now) == PlainLive(m, now)
  {
    RunsAreIndexed(EMPTY, es, start, ttl);
    SessionsArePlain(EMPTY, es);
    IndexedListsTheLive(Run(EMPTY, es), End(es, start), now);
    assert Live(Run(EMPTY, es), now) == PlainLive(PlainRun(map[], es), now);
  }

  // ---- without a common ttl ----

  /** Creating a session keeps the index complete exactly when no other live session
      outlasts it: the expiry of the whole index is set to that of the newest. */
  lemma CreateKeepsIndexedExactlyWhen(s: Store, now: int, id: string, ip: string, agent: string, ttl: int)
    requires Indexed(s, now)
    ensures Indexed(Created(s, now, id, ip, agent, ttl), now) <==>
      forall other :: other in s.sessions && other != id && IsLive(s, other, now) ==>
        s.sessions[other].expiresAt <= now + ttl
  {
    var t := Created(s, now, id, ip, agent, ttl);
    assert forall other :: other in s.sessions && other != id ==> t.sessions[other] == s.sessions[other];
    assert forall other :: other in s.sessions && IsLive(s, other, now) ==> other in Members(s, now);
    if Indexed(t, now) {
      forall other | other in s.sessions && other != id && IsLive(s, other, now)
        ensures s.sessions[other].expiresAt <= now + ttl
      {
        assert IsLive(t, other, now);
      }
    }
  }

  /** Otherwise the longer session is live but missing from every listing between
      the two expiries. */
  lemma OutlivedSessionIsNotListed(s: Store, now: int, id: string, ip: string, agent: string, ttl: int,
                                   other: string, later: int)
    requires other != id && other in s.sessions && now + ttl <= later < s.sessions[other].expiresAt
    ensures var t := Created(s, now, id, ip, agent, ttl);
      IsLive(t, other, later) && other !in Members(t, later)
  {}
}
