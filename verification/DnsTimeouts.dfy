/**
 * Whom the timer of the DNS client fails. A deferred request is failed when its own deadline has
 * passed. A request in flight is failed by any entry for its id: an answered request leaves its
 * entry behind, and the next request under that id can be failed by it, too early.
 */
module DnsTimeouts {
  import opened Prelude
  import opened DnsClient
  import F = DnsFraming

  /** The deadline of an unanswered request. */
  ghost function Due(c: Client, id: Id): nat
    requires Tables(c) && (id in c.original || id in c.deferred)
  {
    HasDeadline(c, id);
    Track(c.log).value[id].at + c.timeout
  }

  ghost predicate Expired(es: seq<Entry>, id: Id, at: nat) {
    exists e | e in es :: e.id == id && e.deadline <= at
  }

  lemma ExpiredTail(es: seq<Entry>, id: Id, at: nat)
    requires es != []
    ensures Expired(es, id, at) <==> (es[0].id == id && es[0].deadline <= at) || Expired(es[1..], id, at)
  {
    if e :| e in es && e.id == id && e.deadline <= at {
      assert e == es[0] || e in es[1..];
    }
    assert es[0] in es && forall e | e in es[1..] :: e in es;
  }

  lemma NotExpired(es: seq<Entry>, id: Id, at: nat)
    requires Sorted(es) && (es != [] ==> es[0].deadline > at)
    ensures !Expired(es, id, at)
  {
  }

  lemma {:induction false} ExpireInFlightExactly(c: Client, id: Id)
    requires Sorted(c.deadlines)
    ensures var d := ExpireInFlight(c);
      && (id in d.original <==> id in c.original && !Expired(c.deadlines, id, c.now))
      && d.deferred == c.deferred && d.deferredDeadlines == c.deferredDeadlines
    decreases |c.deadlines|
  {
    if c.deadlines != [] && c.deadlines[0].deadline <= c.now {
      ExpireInFlightExactly(ExpireFirst(c), id);
      ExpiredTail(c.deadlines, id, c.now);
    } else {
      NotExpired(c.deadlines, id, c.now);
    }
  }

  lemma {:induction false} ExpireDeferredExactly(c: Client, now: nat, id: Id)
    requires Sorted(c.deferredDeadlines)
    ensures id in ExpireDeferred(c, now).deferred <==> id in c.deferred && !Expired(c.deferredDeadlines, id, now)
    decreases |c.deferredDeadlines|
  {
    if c.deferredDeadlines != [] && c.deferredDeadlines[0].deadline <= now {
      ExpireDeferredExactly(FailFirstDeferred(c), now, id);
      ExpiredTail(c.deferredDeadlines, id, now);
    } else {
      NotExpired(c.deferredDeadlines, id, now);
    }
  }

  /** A deferred request has one entry, its own. */
  lemma DeferredEntry(c: Client, id: Id, at: nat)
    requires Tables(c) && id in c.deferred
    ensures Expired(c.deferredDeadlines, id, at) <==> Due(c, id) <= at
  {
    var own := Entry(Track(c.log).value[id].at + c.timeout, id);
    assert own in c.deferredDeadlines;
    var k :| 0 <= k < |c.deferredDeadlines| && c.deferredDeadlines[k] == own;
    assert forall j | 0 <= j < |c.deferredDeadlines| && c.deferredDeadlines[j].id == id :: j == k;
  }

  /** What a timeout leaves in the two tables. */
  lemma TimeoutTables(c: Client, at: nat)
    ensures var c0 := c.(now := at, timer := None);
      && Next(c, Timeout(at)).original == ExpireInFlight(c0).original
      && Next(c, Timeout(at)).deferred == ExpireDeferred(ExpireInFlight(c0), at).deferred
  {
    DeferredUnwritten(ExpireInFlight(c.(now := at, timer := None)), at);
  }

  lemma TimeoutFails(c: Client, at: nat, id: Id)
    requires Sorted(c.deadlines) && Sorted(c.deferredDeadlines)
    ensures var d := Next(c, Timeout(at));
      && (id in d.original <==> id in c.original && !Expired(c.deadlines, id, at))
      && (id in d.deferred <==> id in c.deferred && !Expired(c.deferredDeadlines, id, at))
  {
    TimeoutTables(c, at);
    var c0 := c.(now := at, timer := None);
    ExpireInFlightExactly(c0, id);
    ExpireDeferredExactly(ExpireInFlight(c0), at, id);
  }

  /**
   * When the timer fires, a deferred request is failed exactly when its own deadline has passed, and
   * a request in flight exactly when some entry for its id has.
   */
  lemma TimeoutFailsExactly(c: Client, at: nat, id: Id)
    requires Inv(c)
    ensures id in c.original ==> (id !in Next(c, Timeout(at)).original <==> Expired(c.deadlines, id, at))
    ensures id in c.deferred ==> (id !in Next(c, Timeout(at)).deferred <==> Due(c, id) <= at)
  {
    TimeoutFails(c, at, id);
    if id in c.deferred {
      DeferredEntry(c, id, at);
    }
  }

  /** No entry for the id is older than the request's own. */
  ghost predicate NoStaleEntry(c: Client, id: Id)
    requires Tables(c) && id in c.original
  {
    forall e | e in c.deadlines && e.id == id :: e.deadline >= Due(c, id)
  }

  /** No timeout fails the request before its deadline. */
  ghost predicate Timely(c: Client, id: Id)
    requires Tables(c) && id in c.original
  {
    forall at: nat | Enabled(c, Timeout(at)) && at < Due(c, id) :: id in Next(c, Timeout(at)).original
  }

  /** A request in flight is safe from being failed early if and only if its id has no older entry. */
  lemma TimelyExactly(c: Client, id: Id)
    requires Inv(c) && id in c.original && c.now < Due(c, id)
    ensures Timely(c, id) <==> NoStaleEntry(c, id)
  {
    if NoStaleEntry(c, id) {
      forall at: nat | Enabled(c, Timeout(at)) && at < Due(c, id)
        ensures id in Next(c, Timeout(at)).original
      {
        TimeoutFailsExactly(c, at, id);
      }
    } else {
      var e :| e in c.deadlines && e.id == id && e.deadline < Due(c, id);
      var at := Max(e.deadline, c.now);
      assert HasEntry(c, e) && Enabled(c, Timeout(at));
      TimeoutFailsExactly(c, at, id);
    }
  }

  // ---- Reaching it ----

  lemma {:induction false} Joined(c: Client, a: seq<Event>, b: seq<Event>)
    requires Possible(c, a) && Possible(After(c, a), b)
    ensures Possible(c, a + b) && After(c, a + b) == After(After(c, a), b)
    decreases |a|
  {
    if a == [] {
      assert a + b == b;
    } else {
      assert (a + b)[0] == a[0] && (a + b)[1..] == a[1..] + b;
      Joined(Next(c, a[0]), a[1..], b);
    }
  }

  lemma OneEvent(c: Client, e: Event)
    ensures Possible(c, [e]) <==> Enabled(c, e)
    ensures After(c, [e]) == Next(c, e)
  {
    assert [e][1..] == [];
    assert After(c, [e]) == After(Next(c, e), []);
    assert Possible(Next(c, e), []);
  }

  /** A request that is too short for an id is refused, but uses an id up. */
  function TooShort(at: nat): Event { Send([], false, at, false, false) }

  function Repeat(e: Event, n: nat): seq<Event> {
    if n == 0 then [] else [e] + Repeat(e, n - 1)
  }

  function Ahead(id: Id, n: nat): Id { (id + n) % 0x1_0000 }

  lemma AheadStep(id: Id, n: nat)
    requires n > 0
    ensures Ahead(Following(id), n - 1) == Ahead(id, n)
  {
  }

  lemma {:induction false} ShortRequests(c: Client, n: nat)
    ensures Possible(c, Repeat(TooShort(c.now), n))
    ensures After(c, Repeat(TooShort(c.now), n)) == c.(nextId := Ahead(c.nextId, n))
    decreases n
  {
    if n > 0 {
      var d := Next(c, TooShort(c.now));
      assert d == c.(nextId := Following(c.nextId));
      ShortRequests(d, n - 1);
      AheadStep(c.nextId, n);
      assert Repeat(TooShort(c.now), n)[1..] == Repeat(TooShort(c.now), n - 1);
    }
  }

  /** Where a first request has been answered: only its entry and the timer are left. */
  ghost predicate Answered(c: Client, d: Client) {
    && d.original == map[] && d.deferred == map[] && d.deadlines == [Entry(c.now + c.timeout, c.nextId)]
    && d.timer == Some(c.now + Millis(c.timeout)) && d.now == c.now && d.timeout == c.timeout
    && d.nextId == Following(c.nextId)
  }

  lemma FirstAnswered(c: Client, request: seq<byte>) returns (events: seq<Event>)
    requires Initial(c) && |request| >= 2
    ensures Possible(c, events) && Answered(c, After(c, events))
  {
    var send, reply := Send(request, false, c.now, false, false), UdpData(PutU16(c.nextId));
    var sent := Next(c, send);
    U16RoundTrip(c.nextId, []);
    assert PutU16(c.nextId) + [] == PutU16(c.nextId);
    assert sent.original == map[c.nextId := request[..2]];
    assert Next(sent, reply).original == map[];
    OneEvent(c, send);
    OneEvent(sent, reply);
    Joined(c, [send], [reply]);
    events := [send] + [reply];
  }

  /** The ids come round, and `b` is about to give out the same one again. */
  lemma ComesRound(c: Client, request: seq<byte>) returns (events: seq<Event>, b: Client)
    requires Initial(c) && |request| >= 2
    ensures Possible(c, events) && After(c, events) == b
    ensures Answered(c, b.(nextId := Following(c.nextId))) && b.nextId == c.nextId
  {
    var first := FirstAnswered(c, request);
    var a := After(c, first);
    ShortRequests(a, 0xFFFF);
    AheadStep(c.nextId, 0x1_0000);
    Joined(c, first, Repeat(TooShort(a.now), 0xFFFF));
    events, b := first + Repeat(TooShort(a.now), 0xFFFF), a.(nextId := c.nextId);
  }

  /** The second request under an id, whose first left `stale` behind. */
  lemma SecondRequest(b: Client, request: seq<byte>, at: nat)
    requires |request| >= 2 && b.original == map[] && b.deferred == map[] && b.timer.Some?
    requires Tables(Next(b, Send(request, false, at, false, false)))
    ensures var d := Next(b, Send(request, false, at, false, false));
      && b.nextId in d.original && Due(d, b.nextId) == at + b.timeout
      && d.timer == b.timer && d.now == at && (forall e | e in b.deadlines :: e in d.deadlines)
  {
    var d := Next(b, Send(request, false, at, false, false));
    InsertMembers(b.deadlines, Entry(at + b.timeout, b.nextId));
    assert d.log[..|d.log| - 1] == b.log && d.log[|d.log| - 1] == Accepted(b.nextId, at, request);
  }

  /** Its request is sent, later than the one that left its entry. */
  lemma SecondComesRound(c: Client, request: seq<byte>) returns (events: seq<Event>)
    requires Initial(c) && |request| >= 2
    ensures Possible(c, events) && Inv(After(c, events))
    ensures var d := After(c, events);
      && d.timer == Some(c.now + Millis(c.timeout)) && d.now == c.now + 1 && Entry(c.now + c.timeout, c.nextId) in d.deadlines
      && c.nextId in d.original && Due(d, c.nextId) == c.now + 1 + c.timeout
  {
    var again := Send(request, false, c.now + 1, false, false);
    var round, b := ComesRound(c, request);
    OneEvent(b, again);
    Joined(c, round, [again]);
    events := round + [again];
    InvFromStart(c, events);
    SecondRequest(b, request, c.now + 1);
    assert Entry(c.now + c.timeout, c.nextId) in b.deadlines;
  }

  /**
   * It can happen: a request is answered, the ids come round, and the next request under its id is
   * failed by the entry it left, before its own deadline.
   */
  lemma EarlyFailureIsReachable(c: Client, request: seq<byte>) returns (events: seq<Event>, at: nat)
    requires Initial(c) && |request| >= 2 && c.timeout > 0
    ensures Possible(c, events) && Inv(After(c, events)) && Enabled(After(c, events), Timeout(at))
    ensures c.nextId in After(c, events).original && at < Due(After(c, events), c.nextId)
    ensures c.nextId !in Next(After(c, events), Timeout(at)).original
  {
    events := SecondComesRound(c, request);
    at := c.now + c.timeout;
    TimeoutFailsExactly(After(c, events), at, c.nextId);
  }

  lemma InvFromStart(c: Client, events: seq<Event>)
    requires Initial(c) && Possible(c, events)
    ensures Inv(After(c, events))
  {
    assert Inv(c);
    InvAlways(c, events);
  }
}
