/**
 * The request table of the DNS client: request ids, deferral until the TCP socket is writable,
 * deadlines and the timer.
 *
 * Sockets are modelled by the events they raise and by what they accept, time by a clock that does
 * not go back. Response callbacks do not re-enter `send`.
 */
module DnsClient {
  import opened Prelude
  import F = DnsFraming

  type Id = x: nat | x < 0x1_0000

  const UDP_MAX: nat := 4096          // DNS_MESSAGE_MAX_SIZE
  const NS_PER_MS: nat := 1_000_000

  datatype Socket = Closed | Connecting | Connected

  datatype Entry = Entry(deadline: nat, id: Id)

  // What the user of the client sees: requests accepted, and responses (`None` is a failure).
  datatype Act =
    | Accepted(id: Id, at: nat, request: seq<byte>)
    | Responded(id: Id, data: Option<seq<byte>>)

  datatype Sent = Tcp(bytes: seq<byte>) | Udp(bytes: seq<byte>)

  // ---- The law: one response per accepted request ----

  datatype Request = Request(at: nat, bytes: seq<byte>)

  /**
   * The requests accepted and not yet answered, or `None` once some callback broke the law: a
   * response nobody waits for, an id given out twice, or an answer under another transaction id.
   */
  function Track(log: seq<Act>): Option<map<Id, Request>> {
    if log == [] then Some(map[])
    else
      var before := Track(log[..|log| - 1]);
      if before.None? then None else TrackAct(before.value, log[|log| - 1])
  }

  function TrackAct(m: map<Id, Request>, act: Act): Option<map<Id, Request>> {
    match act
    case Accepted(id, at, request) =>
      if id in m then None else Some(m[id := Request(at, request)])
    case Responded(id, data) =>
      if id in m && (data.Some? ==> m[id].bytes[..Min(2, |m[id].bytes|)] <= data.value) then Some(m - {id}) else None
  }

  lemma TrackSnoc(log: seq<Act>, act: Act)
    requires Track(log).Some?
    ensures Track(log + [act]) == TrackAct(Track(log).value, act)
  {
    assert (log + [act])[..|log|] == log;
  }

  function Count(log: seq<Act>, id: Id, responses: bool): nat {
    if log == [] then 0
    else
      var act := log[|log| - 1];
      Count(log[..|log| - 1], id, responses) + (if act.id == id && act.Responded? == responses then 1 else 0)
  }

  /** A lawful log answers every accepted request exactly once, except those outstanding. */
  lemma {:induction false} TrackMeans(log: seq<Act>, id: Id)
    requires Track(log).Some?
    ensures Count(log, id, false) == Count(log, id, true) + (if id in Track(log).value then 1 else 0)
  {
    if log != [] {
      TrackMeans(log[..|log| - 1], id);
    }
  }

  /** The law holds at every moment of a lawful log, so between two uses of an id there is one response. */
  lemma {:induction false} TrackPrefix(log: seq<Act>, n: nat)
    requires Track(log).Some? && n <= |log|
    ensures Track(log[..n]).Some?
    decreases |log|
  {
    if n == |log| {
      assert log[..n] == log;
    } else {
      TrackPrefix(log[..|log| - 1], n);
      assert log[..|log| - 1][..n] == log[..n];
    }
  }

  // ---- Deadline multimaps: sorted by deadline, equal deadlines in insertion order ----

  predicate Sorted(es: seq<Entry>) {
    forall i, j | 0 <= i < j < |es| :: es[i].deadline <= es[j].deadline
  }

  predicate DistinctIds(es: seq<Entry>) {
    forall i, j | 0 <= i < j < |es| :: es[i].id != es[j].id
  }

  lemma DistinctTail(es: seq<Entry>)
    requires es != [] && DistinctIds(es)
    ensures DistinctIds(es[1..]) && forall e | e in es[1..] :: e.id != es[0].id && e in es
  {
  }

  function Insert(es: seq<Entry>, e: Entry): seq<Entry> {
    if es == [] || es[|es| - 1].deadline <= e.deadline then es + [e]
    else Insert(es[..|es| - 1], e) + [es[|es| - 1]]
  }

  lemma {:induction false} InsertMembers(es: seq<Entry>, e: Entry)
    ensures |Insert(es, e)| == |es| + 1
    ensures forall x :: x in Insert(es, e) <==> x in es || x == e
  {
    if es != [] && es[|es| - 1].deadline > e.deadline {
      InsertMembers(es[..|es| - 1], e);
      assert es == es[..|es| - 1] + [es[|es| - 1]];
    }
  }

  lemma {:induction false} InsertSorted(es: seq<Entry>, e: Entry)
    requires Sorted(es)
    ensures Sorted(Insert(es, e))
  {
    if es != [] && es[|es| - 1].deadline > e.deadline {
      var front, last := es[..|es| - 1], es[|es| - 1];
      InsertSorted(front, e);
      InsertMembers(front, e);
      forall i | 0 <= i < |front| + 1 ensures Insert(front, e)[i].deadline <= last.deadline {
        assert Insert(front, e)[i] in Insert(front, e);
      }
    }
  }

  lemma {:induction false} InsertDistinct(es: seq<Entry>, e: Entry)
    requires DistinctIds(es) && forall x | x in es :: x.id != e.id
    ensures DistinctIds(Insert(es, e))
  {
    if es != [] && es[|es| - 1].deadline > e.deadline {
      var front, last := es[..|es| - 1], es[|es| - 1];
      InsertDistinct(front, e);
      InsertMembers(front, e);
      forall i | 0 <= i < |front| + 1 ensures Insert(front, e)[i].id != last.id {
        assert Insert(front, e)[i] in Insert(front, e);
      }
    }
  }

  // ---- The client's state ----

  datatype Client = Client(
    timeout: nat,
    now: nat,
    nextId: Id,
    original: map<Id, seq<byte>>,        // m_original_id_by_request_id: the requests in flight
    deadlines: seq<Entry>,               // m_request_id_by_deadline
    deferredDeadlines: seq<Entry>,       // m_deferred_request_id_by_deadline
    deferred: map<Id, seq<byte>>,        // m_deferred_request_by_request_id
    socket: Socket,
    timer: Option<nat>,                  // when the timer is due, if pending
    held: seq<byte>,                     // the unfinished part of the TCP stream
    sent: seq<Sent>,
    log: seq<Act>)

  ghost predicate Initial(c: Client) {
    && c.original == map[] && c.deferred == map[] && c.deadlines == [] && c.deferredDeadlines == []
    && c.timer == None && c.log == [] && c.sent == [] && c.held == [] && c.socket == Closed
  }

  // ---- Steps ----

  function Respond(c: Client, id: Id, data: Option<seq<byte>>): Client {
    c.(log := c.log + [Responded(id, data)])
  }

  /** A response on the wire: delivered under the original id, or ignored if nobody waits for it. */
  function Answer(c: Client, frame: seq<byte>): Client {
    if |frame| >= 2 && GetU16(frame) in c.original then
      var id: Id := GetU16(frame);
      Respond(c.(original := c.original - {id}), id, Some(c.original[id] + frame[2..]))
    else c
  }

  function AnswerAll(c: Client, frames: seq<seq<byte>>): Client
    decreases |frames|
  {
    if frames == [] then c else AnswerAll(Answer(c, frames[0]), frames[1..])
  }

  function FailInFlight(c: Client, id: Id): Client {
    Respond(c.(original := c.original - {id}), id, None)
  }

  function FailEach(c: Client, ids: seq<Id>): Client
    decreases |ids|
  {
    if ids == [] then c else FailEach(FailInFlight(c, ids[0]), ids[1..])
  }

  function ExpireFirst(c: Client): Client
    requires c.deadlines != []
  {
    var popped := c.(deadlines := c.deadlines[1..]);
    if c.deadlines[0].id in c.original then FailInFlight(popped, c.deadlines[0].id) else popped
  }

  function ExpireInFlight(c: Client): Client
    decreases |c.deadlines|
  {
    if c.deadlines != [] && c.deadlines[0].deadline <= c.now then ExpireInFlight(ExpireFirst(c)) else c
  }

  function FailFirstDeferred(c: Client): Client
    requires c.deferredDeadlines != []
  {
    var id := c.deferredDeadlines[0].id;
    var popped := c.(deferredDeadlines := c.deferredDeadlines[1..]);
    if id in c.deferred then Respond(popped.(deferred := c.deferred - {id}), id, None) else popped
  }

  function ExpireDeferred(c: Client, now: nat): Client
    decreases |c.deferredDeadlines|
  {
    if c.deferredDeadlines != [] && c.deferredDeadlines[0].deadline <= now then
      ExpireDeferred(FailFirstDeferred(c), now)
    else c
  }

  function FailDeferred(c: Client): Client
    decreases |c.deferredDeadlines|
  {
    if c.deferredDeadlines != [] then FailDeferred(FailFirstDeferred(c)) else c
  }

  /** What TCP carries for a request: a frame with our id in place of the original one. */
  function TcpBytes(id: Id, request: seq<byte>): seq<byte>
    requires |request| >= 2
  {
    PutU16(|request| % 0x1_0000) + PutU16(id) + request[2..]
  }

  /** A request sent over TCP is read back as one message, with our id, iff its length fits 16 bits. */
  lemma TcpCarries(id: Id, request: seq<byte>)
    requires |request| >= 2
    ensures F.Parse(TcpBytes(id, request)) == F.Parsed([PutU16(id) + request[2..]], [])
            <==> |request| <= F.MAX_MESSAGE
  {
    var size, body := |request| % 0x1_0000, PutU16(id) + request[2..];
    Assoc(PutU16(size), PutU16(id), request[2..]);
    FrameOf(size, body);
    assert size == |body| <==> |request| <= F.MAX_MESSAGE;
  }

  /** A length field is read back as one message and nothing else, iff it is the length of what follows. */
  lemma FrameOf(size: nat, body: seq<byte>)
    requires size <= |body| && size <= F.MAX_MESSAGE
    ensures F.Parse(PutU16(size) + body) == F.Parsed([body], []) <==> size == |body|
  {
    U16RoundTrip(size, body);
    Behind(PutU16(size), body, size);
    F.ParseFirst(PutU16(size) + body);
    if size == |body| {
      LastFrame(body, size);
    } else {
      OtherFrame(body, size, F.Parse(body[size..]).messages);
    }
  }

  lemma Behind(head: seq<byte>, body: seq<byte>, size: nat)
    requires |head| == 2 && size <= |body|
    ensures (head + body)[2..2 + size] == body[..size] && (head + body)[2 + size..] == body[size..]
  {
  }

  lemma LastFrame(body: seq<byte>, size: nat)
    requires size == |body|
    ensures body[..size] == body && F.Parse(body[size..]) == F.Parsed([], [])
    ensures [body] + F.Parse(body[size..]).messages == [body]
  {
    assert body[size..] == [];
  }

  lemma OtherFrame(body: seq<byte>, size: nat, more: seq<seq<byte>>)
    requires size < |body|
    ensures [body[..size]] + more != [body]
  {
    assert ([body[..size]] + more)[0] == body[..size];
  }

  function UdpBytes(id: Id, request: seq<byte>): seq<byte>
    requires |request| >= 2
  {
    PutU16(id) + request[2..Min(|request|, UDP_MAX)]
  }

  /** A datagram carries our id and the request's body, up to the largest message. */
  lemma UdpCarries(id: Id, request: seq<byte>)
    requires |request| >= 2
    ensures GetU16(UdpBytes(id, request)) == id
    ensures |UdpBytes(id, request)| == Min(|request|, UDP_MAX) && UdpBytes(id, request)[2..] <= request[2..]
  {
    U16RoundTrip(id, request[2..Min(|request|, UDP_MAX)]);
  }

  /** The first deferred request goes out and keeps its deadline. */
  function PromoteFirst(c: Client): Client
    requires c.deferredDeadlines != [] && c.deferredDeadlines[0].id in c.deferred
    requires |c.deferred[c.deferredDeadlines[0].id]| >= 2
  {
    var e := c.deferredDeadlines[0];
    var request := c.deferred[e.id];
    c.(original := c.original[e.id := request[..2]],
       deferred := c.deferred - {e.id},
       deadlines := Insert(c.deadlines, e),
       deferredDeadlines := c.deferredDeadlines[1..],
       sent := c.sent + [Tcp(TcpBytes(e.id, request))])
  }

  predicate Promotable(c: Client) {
    && c.deferredDeadlines != [] && c.deferredDeadlines[0].id in c.deferred
    && |c.deferred[c.deferredDeadlines[0].id]| >= 2
  }

  /** `send_deferred_requests`, when the socket has room for `room` requests. */
  function Promote(c: Client, room: nat): Client
    decreases room
  {
    if room > 0 && Promotable(c) then Promote(PromoteFirst(c), room - 1) else c
  }

  /** A timer is set in whole milliseconds. */
  function Millis(ns: nat): nat { ns - ns % NS_PER_MS }

  function Rearm(c: Client): Client {
    var next := if c.deadlines == [] then c.deferredDeadlines
                else if c.deferredDeadlines == [] then c.deadlines
                else if c.deadlines[0].deadline <= c.deferredDeadlines[0].deadline then c.deadlines
                else c.deferredDeadlines;
    if next == [] then c.(timer := None)
    else if next[0].deadline < c.now then c.(timer := Some(c.now))
    else c.(timer := Some(c.now + Millis(next[0].deadline - c.now)))
  }

  function Following(id: Id): Id { if id == 0xFFFF then 0 else id + 1 }

  /** The bookkeeping of an accepted request: its deadline, its body if it is deferred, and the timer. */
  function Enqueue(c: Client, id: Id, request: seq<byte>, written: bool): Client {
    var e := Entry(c.now + c.timeout, id);
    var timed := if c.timer.None? then c.(timer := Some(c.now + Millis(c.timeout))) else c;
    var logged := timed.(log := c.log + [Accepted(id, c.now, request)]);
    if written then logged.(deadlines := Insert(c.deadlines, e))
    else logged.(deferred := c.deferred[id := request], deferredDeadlines := Insert(c.deferredDeadlines, e))
  }

  function Write(c: Client, id: Id, request: seq<byte>, tcp: bool): Client
    requires |request| >= 2
  {
    c.(original := c.original[id := request[..2]],
       sent := c.sent + [if tcp then Tcp(TcpBytes(id, request)) else Udp(UdpBytes(id, request))])
  }

  /** An accepted request: in flight if it was written, deferred otherwise. */
  function Accept(c: Client, id: Id, request: seq<byte>, tcp: bool, written: bool): Client
    requires |request| >= 2
  {
    Enqueue(if written then Write(c, id, request, tcp) else c, id, request, written)
  }

  datatype Event =
    | Send(request: seq<byte>, tcp: bool, at: nat, connectOk: bool, writable: bool)
    | TcpData(data: seq<byte>)
    | TcpClosed(order: seq<Id>, connectOk: bool)  // `order` is the iteration order of the hash map
    | UdpData(response: seq<byte>)
    | ConnectOk(room: nat)
    | ConnectFailed
    | Flushed(room: nat)
    | Timeout(at: nat)

  /** What the environment may do in a state. */
  ghost predicate Enabled(c: Client, e: Event) {
    match e
    case Send(_, _, at, _, _) => at >= c.now
    case TcpData(data) => c.socket == Connected && data != []
    case TcpClosed(order, _) => c.socket == Connected && NoDuplicates(order) && forall id: Id :: id in order <==> id in c.original
    case UdpData(_) => true
    case ConnectOk(_) => c.socket == Connecting
    case ConnectFailed => c.socket == Connecting
    case Flushed(_) => c.socket == Connected
    case Timeout(at) => c.timer.Some? && at >= c.timer.value && at >= c.now
  }

  function Next(c: Client, e: Event): Client {
    match e
    case Send(request, tcp, at, connectOk, writable) =>
      var id := c.nextId;
      var c := c.(now := at, nextId := Following(id));
      if |request| < 2 || id in c.original || id in c.deferred then c
      else
        var written := !tcp || (c.socket == Connected && writable);
        var c := if tcp && c.socket == Closed && connectOk then c.(socket := Connecting) else c;
        Accept(c, id, request, tcp, written)
    case TcpData(data) =>
      var parsed := F.Parse(c.held + data);
      AnswerAll(c, parsed.messages).(held := parsed.tail)
    case TcpClosed(order, connectOk) =>
      FailEach(c, order).(deadlines := [], original := map[],
                          socket := if c.deferredDeadlines != [] && connectOk then Connecting else Closed)
    case UdpData(response) => Answer(c, response)
    case ConnectOk(room) => Promote(c.(socket := Connected), room)
    case ConnectFailed => FailDeferred(c).(socket := Closed, deferred := map[])
    case Flushed(room) => Promote(c, room)
    case Timeout(at) =>
      var c := ExpireInFlight(c.(now := at, timer := None));
      Rearm(ExpireDeferred(c, at))
  }

  // ---- The invariant ----

  ghost predicate Known(m: map<Id, Request>, original: map<Id, seq<byte>>, deferred: map<Id, seq<byte>>) {
    && (forall id | id in m :: |m[id].bytes| >= 2)
    && (forall id | id in m :: id in original || id in deferred)
    && (forall id | id in original :: id !in deferred)
  }

  ghost predicate InFlightOk(m: map<Id, Request>, original: map<Id, seq<byte>>, deadlines: seq<Entry>, timeout: nat) {
    forall id | id in original ::
      id in m && m[id].bytes[..Min(2, |m[id].bytes|)] == original[id] && Entry(m[id].at + timeout, id) in deadlines
  }

  ghost predicate DeferredOk(m: map<Id, Request>, deferred: map<Id, seq<byte>>, deadlines: seq<Entry>, timeout: nat) {
    && (forall id | id in deferred :: id in m && m[id].bytes == deferred[id] && Entry(m[id].at + timeout, id) in deadlines)
    && (forall e | e in deadlines :: e.id in deferred)
    && DistinctIds(deadlines)
  }

  /** The tables hold exactly the unanswered requests, each with its deadline. */
  ghost predicate Tables(c: Client) {
    && Track(c.log).Some?
    && Known(Track(c.log).value, c.original, c.deferred)
    && InFlightOk(Track(c.log).value, c.original, c.deadlines, c.timeout)
    && DeferredOk(Track(c.log).value, c.deferred, c.deferredDeadlines, c.timeout)
  }

  predicate HasEntry(c: Client, e: Entry) {
    e in c.deadlines || e in c.deferredDeadlines
  }

  ghost predicate Scheduled(c: Client) {
    && Sorted(c.deadlines) && Sorted(c.deferredDeadlines)
    && (forall e | HasEntry(c, e) :: e.deadline <= c.now + c.timeout)
    && (c.timer.Some? ==> c.timer.value <= c.now + c.timeout)
  }

  /** While anything has a deadline, the timer is pending and due no later than that. */
  ghost predicate Armed(c: Client) {
    forall e | HasEntry(c, e) :: c.timer.Some? && c.timer.value <= e.deadline
  }

  ghost predicate Inv(c: Client) {
    Tables(c) && Scheduled(c) && Armed(c)
  }

  /** A step that leaves the clock alone and gives out no new deadlines. */
  ghost predicate Settles(c: Client, d: Client) {
    && c.timeout == d.timeout && c.now == d.now && c.timer == d.timer && c.nextId == d.nextId
    && (forall e | HasEntry(d, e) :: HasEntry(c, e))
    && (Scheduled(c) ==> Scheduled(d)) && (Tables(c) ==> Tables(d))
  }

  // ---- Each primitive step keeps the tables ----

  lemma InFlightDrop(m: map<Id, Request>, original: map<Id, seq<byte>>, deadlines: seq<Entry>, timeout: nat, id: Id)
    requires InFlightOk(m, original, deadlines, timeout)
    ensures InFlightOk(m - {id}, original - {id}, deadlines, timeout)
  {
  }

  lemma DeferredForget(m: map<Id, Request>, deferred: map<Id, seq<byte>>, deadlines: seq<Entry>, timeout: nat, id: Id)
    requires DeferredOk(m, deferred, deadlines, timeout) && id !in deferred
    ensures DeferredOk(m - {id}, deferred, deadlines, timeout)
  {
  }

  lemma ResponseKeeps(c: Client, id: Id, data: Option<seq<byte>>)
    requires Tables(c) && id in c.original && (data.Some? ==> c.original[id] <= data.value)
    ensures Tables(Respond(c.(original := c.original - {id}), id, data))
  {
    var m := Track(c.log).value;
    InFlightDrop(m, c.original, c.deadlines, c.timeout, id);
    DeferredForget(m, c.deferred, c.deferredDeadlines, c.timeout, id);
    TablesFrom(Respond(c.(original := c.original - {id}), id, data), c.log, Responded(id, data), m - {id});
  }

  lemma AnswerSettles(c: Client, frame: seq<byte>)
    requires Tables(c)
    ensures Settles(c, Answer(c, frame))
    ensures Answer(c, frame).deferred == c.deferred && Answer(c, frame).deferredDeadlines == c.deferredDeadlines
  {
    if |frame| >= 2 && GetU16(frame) in c.original {
      var id: Id := GetU16(frame);
      ResponseKeeps(c, id, Some(c.original[id] + frame[2..]));
    }
  }

  lemma FailSettles(c: Client, id: Id)
    requires Tables(c) && id in c.original
    ensures Settles(c, FailInFlight(c, id))
  {
    ResponseKeeps(c, id, None);
  }

  lemma PopSettles(c: Client)
    requires Tables(c) && c.deadlines != [] && c.deadlines[0].id !in c.original
    ensures Settles(c, c.(deadlines := c.deadlines[1..]))
  {
    var d := c.(deadlines := c.deadlines[1..]);
    assert forall e | e in c.deadlines && e != c.deadlines[0] :: e in d.deadlines;
  }

  lemma ExpireFirstSettles(c: Client)
    requires Tables(c) && c.deadlines != []
    ensures Settles(c, ExpireFirst(c))
  {
    var id := c.deadlines[0].id;
    if id in c.original {
      FailSettles(c, id);
      PopSettles(FailInFlight(c, id));
    } else {
      PopSettles(c);
    }
  }

  /** The first deferred request leaves the deferred tables, answered or not. */
  lemma DeferredPop(m: map<Id, Request>, deferred: map<Id, seq<byte>>, deadlines: seq<Entry>, timeout: nat)
    requires deadlines != [] && DeferredOk(m, deferred, deadlines, timeout)
    ensures var id := deadlines[0].id;
      id in deferred && DeferredOk(m, deferred - {id}, deadlines[1..], timeout)
      && DeferredOk(m - {id}, deferred - {id}, deadlines[1..], timeout)
  {
    var id, rest := deadlines[0].id, deadlines[1..];
    assert deadlines[0] in deadlines;
    DistinctTail(deadlines);
    forall x | x in deferred && x != id ensures Entry(m[x].at + timeout, x) in rest {
      assert Entry(m[x].at + timeout, x) in deadlines;
    }
  }

  lemma InFlightForget(m: map<Id, Request>, original: map<Id, seq<byte>>, deadlines: seq<Entry>, timeout: nat, id: Id)
    requires InFlightOk(m, original, deadlines, timeout) && id !in original
    ensures InFlightOk(m - {id}, original, deadlines, timeout)
  {
  }

  lemma FailFirstDeferredTables(c: Client)
    requires Tables(c) && c.deferredDeadlines != []
    ensures Tables(FailFirstDeferred(c))
  {
    var m, id := Track(c.log).value, c.deferredDeadlines[0].id;
    DeferredFirst(m, c.deferred, c.deferredDeadlines, c.timeout);
    DeferredPop(m, c.deferred, c.deferredDeadlines, c.timeout);
    InFlightForget(m, c.original, c.deadlines, c.timeout, id);
    TrackSnoc(c.log, Responded(id, None));
    assert Known(m - {id}, c.original, c.deferred - {id});
    var d := FailFirstDeferred(c);
    assert Track(d.log) == Some(m - {id});
  }

  lemma FailFirstDeferredSettles(c: Client)
    requires Tables(c) && c.deferredDeadlines != []
    ensures Settles(c, FailFirstDeferred(c))
  {
    FailFirstDeferredTables(c);
  }

  lemma InFlightAdd(m: map<Id, Request>, original: map<Id, seq<byte>>, deadlines: seq<Entry>, timeout: nat, id: Id)
    requires InFlightOk(m, original, deadlines, timeout) && id in m && |m[id].bytes| >= 2
    ensures InFlightOk(m, original[id := m[id].bytes[..2]], Insert(deadlines, Entry(m[id].at + timeout, id)), timeout)
  {
    InsertMembers(deadlines, Entry(m[id].at + timeout, id));
  }

  lemma DeferredFirst(m: map<Id, Request>, deferred: map<Id, seq<byte>>, deadlines: seq<Entry>, timeout: nat)
    requires deadlines != [] && DeferredOk(m, deferred, deadlines, timeout)
    ensures var id := deadlines[0].id; id in deferred && id in m && deadlines[0] == Entry(m[id].at + timeout, id)
  {
    var id := deadlines[0].id;
    assert deadlines[0] in deadlines;
    DistinctTail(deadlines);
    assert forall e | e in deadlines && e != deadlines[0] :: e in deadlines[1..];
  }

  lemma PromotedInFlight(m: map<Id, Request>, c: Client)
    requires Promotable(c) && InFlightOk(m, c.original, c.deadlines, c.timeout)
    requires DeferredOk(m, c.deferred, c.deferredDeadlines, c.timeout)
    ensures var e := c.deferredDeadlines[0];
      InFlightOk(m, c.original[e.id := c.deferred[e.id][..2]], Insert(c.deadlines, e), c.timeout)
  {
    DeferredFirst(m, c.deferred, c.deferredDeadlines, c.timeout);
    InFlightAdd(m, c.original, c.deadlines, c.timeout, c.deferredDeadlines[0].id);
  }

  lemma PromotedDeferred(m: map<Id, Request>, c: Client)
    requires Promotable(c) && DeferredOk(m, c.deferred, c.deferredDeadlines, c.timeout)
    ensures DeferredOk(m, c.deferred - {c.deferredDeadlines[0].id}, c.deferredDeadlines[1..], c.timeout)
  {
    DeferredPop(m, c.deferred, c.deferredDeadlines, c.timeout);
  }

  lemma DeferredPromotable(c: Client)
    requires Tables(c) && c.deferredDeadlines != []
    ensures Promotable(c)
  {
    assert c.deferredDeadlines[0] in c.deferredDeadlines;
  }

  lemma PromoteFirstTables(c: Client)
    requires Tables(c) && c.deferredDeadlines != []
    ensures Promotable(c) && Tables(PromoteFirst(c))
  {
    DeferredPromotable(c);
    PromotedInFlight(Track(c.log).value, c);
    PromotedDeferred(Track(c.log).value, c);
  }

  lemma PromoteFirstScheduled(c: Client)
    requires Promotable(c)
    ensures var d := PromoteFirst(c);
      (forall e | HasEntry(d, e) :: HasEntry(c, e)) && (Scheduled(c) ==> Scheduled(d))
  {
    var e := c.deferredDeadlines[0];
    InsertMembers(c.deadlines, e);
    assert e in c.deferredDeadlines;
    if Scheduled(c) {
      InsertSorted(c.deadlines, e);
    }
  }

  lemma PromoteFirstSettles(c: Client)
    requires Tables(c) && c.deferredDeadlines != []
    ensures Promotable(c) && Settles(c, PromoteFirst(c))
  {
    PromoteFirstTables(c);
    PromoteFirstScheduled(c);
  }

  lemma DeferredAdd(m: map<Id, Request>, deferred: map<Id, seq<byte>>, deadlines: seq<Entry>, timeout: nat, id: Id)
    requires DeferredOk(m, deferred, deadlines, timeout) && id in m && id !in deferred
    ensures DeferredOk(m, deferred[id := m[id].bytes], Insert(deadlines, Entry(m[id].at + timeout, id)), timeout)
  {
    InsertMembers(deadlines, Entry(m[id].at + timeout, id));
    InsertDistinct(deadlines, Entry(m[id].at + timeout, id));
  }

  lemma InFlightLearn(m: map<Id, Request>, original: map<Id, seq<byte>>, deadlines: seq<Entry>, timeout: nat, id: Id, r: Request)
    requires InFlightOk(m, original, deadlines, timeout) && id !in original
    ensures InFlightOk(m[id := r], original, deadlines, timeout)
  {
  }

  lemma DeferredLearn(m: map<Id, Request>, deferred: map<Id, seq<byte>>, deadlines: seq<Entry>, timeout: nat, id: Id, r: Request)
    requires DeferredOk(m, deferred, deadlines, timeout) && id !in deferred
    ensures DeferredOk(m[id := r], deferred, deadlines, timeout)
  {
  }

  lemma KnownLearn(m: map<Id, Request>, original: map<Id, seq<byte>>, deferred: map<Id, seq<byte>>, id: Id, r: Request)
    requires Known(m, original, deferred) && |r.bytes| >= 2 && id !in original && id !in deferred
    ensures Known(m[id := r], original[id := r.bytes[..2]], deferred)
    ensures Known(m[id := r], original, deferred[id := r.bytes])
  {
  }

  /** The parts of `Tables` for a state whose log is known to have grown. */
  lemma TablesFrom(d: Client, log: seq<Act>, act: Act, n: map<Id, Request>)
    requires Track(log).Some? && d.log == log + [act] && TrackAct(Track(log).value, act) == Some(n)
    requires Known(n, d.original, d.deferred) && InFlightOk(n, d.original, d.deadlines, d.timeout)
    requires DeferredOk(n, d.deferred, d.deferredDeadlines, d.timeout)
    ensures Tables(d)
  {
    TrackSnoc(log, act);
  }

  lemma AcceptedInFlight(m: map<Id, Request>, c: Client, id: Id, request: seq<byte>, tcp: bool)
    requires InFlightOk(m, c.original, c.deadlines, c.timeout) && id !in c.original && |request| >= 2
    ensures var d := Accept(c, id, request, tcp, true);
      InFlightOk(m[id := Request(c.now, request)], d.original, d.deadlines, d.timeout)
  {
    var n := m[id := Request(c.now, request)];
    InFlightLearn(m, c.original, c.deadlines, c.timeout, id, n[id]);
    InFlightAdd(n, c.original, c.deadlines, c.timeout, id);
  }

  lemma AcceptWritten(c: Client, id: Id, request: seq<byte>, tcp: bool)
    requires Tables(c) && |request| >= 2 && id !in c.original && id !in c.deferred
    ensures Tables(Accept(c, id, request, tcp, true))
  {
    var m, r := Track(c.log).value, Request(c.now, request);
    KnownLearn(m, c.original, c.deferred, id, r);
    AcceptedInFlight(m, c, id, request, tcp);
    DeferredLearn(m, c.deferred, c.deferredDeadlines, c.timeout, id, r);
    assert id !in m;
    TablesFrom(Accept(c, id, request, tcp, true), c.log, Accepted(id, c.now, request), m[id := r]);
  }

  lemma EnqueuedDeferred(m: map<Id, Request>, c: Client, id: Id, request: seq<byte>)
    requires DeferredOk(m, c.deferred, c.deferredDeadlines, c.timeout) && id !in c.deferred
    ensures var d := Enqueue(c, id, request, false);
      DeferredOk(m[id := Request(c.now, request)], d.deferred, d.deferredDeadlines, d.timeout)
  {
    DeferredTake(m, c.deferred, c.deferredDeadlines, c.timeout, id, Request(c.now, request));
  }

  lemma AcceptDeferred(c: Client, id: Id, request: seq<byte>, tcp: bool)
    requires Tables(c) && |request| >= 2 && id !in c.original && id !in c.deferred
    ensures Tables(Accept(c, id, request, tcp, false))
  {
    var m, r := Track(c.log).value, Request(c.now, request);
    KnownLearn(m, c.original, c.deferred, id, r);
    InFlightLearn(m, c.original, c.deadlines, c.timeout, id, r);
    EnqueuedDeferred(m, c, id, request);
    assert id !in m;
    TablesFrom(Accept(c, id, request, tcp, false), c.log, Accepted(id, c.now, request), m[id := r]);
  }

  lemma DeferredTake(m: map<Id, Request>, deferred: map<Id, seq<byte>>, deadlines: seq<Entry>, timeout: nat, id: Id, r: Request)
    requires DeferredOk(m, deferred, deadlines, timeout) && id !in deferred
    ensures DeferredOk(m[id := r], deferred[id := r.bytes], Insert(deadlines, Entry(r.at + timeout, id)), timeout)
  {
    DeferredLearn(m, deferred, deadlines, timeout, id, r);
    DeferredAdd(m[id := r], deferred, deadlines, timeout, id);
  }

  lemma NewDeadline(es: seq<Entry>, e: Entry)
    requires Sorted(es)
    ensures Sorted(Insert(es, e)) && forall x | x in Insert(es, e) :: x in es || x == e
  {
    InsertMembers(es, e);
    InsertSorted(es, e);
  }

  /** A new deadline is the latest one... */
  lemma EnqueueSchedules(c: Client, id: Id, request: seq<byte>, written: bool)
    requires Scheduled(c)
    ensures Scheduled(Enqueue(c, id, request, written))
  {
    if written {
      NewDeadline(c.deadlines, Entry(c.now + c.timeout, id));
    } else {
      NewDeadline(c.deferredDeadlines, Entry(c.now + c.timeout, id));
    }
  }

  /** ...and the timer is due before it. */
  lemma EnqueueArms(c: Client, id: Id, request: seq<byte>, written: bool)
    requires Scheduled(c) && Armed(c)
    ensures Armed(Enqueue(c, id, request, written))
  {
    NewDeadline(c.deadlines, Entry(c.now + c.timeout, id));
    NewDeadline(c.deferredDeadlines, Entry(c.now + c.timeout, id));
    var d := Enqueue(c, id, request, written);
    assert forall x | HasEntry(d, x) :: HasEntry(c, x) || x == Entry(c.now + c.timeout, id);
  }

  lemma AcceptTimes(c: Client, id: Id, request: seq<byte>, tcp: bool, written: bool)
    requires Scheduled(c) && Armed(c) && |request| >= 2
    ensures var d := Accept(c, id, request, tcp, written); Scheduled(d) && Armed(d)
  {
    var w := if written then Write(c, id, request, tcp) else c;
    EnqueueSchedules(w, id, request, written);
    EnqueueArms(w, id, request, written);
  }

  // ---- The loops ----

  lemma SettlesTrans(a: Client, b: Client, c: Client)
    requires Settles(a, b) && Settles(b, c)
    ensures Settles(a, c)
  {
  }

  lemma {:induction false} AnswerAllSettles(c: Client, frames: seq<seq<byte>>)
    requires Tables(c)
    ensures Settles(c, AnswerAll(c, frames))
    decreases |frames|
  {
    if frames != [] {
      AnswerSettles(c, frames[0]);
      AnswerAllSettles(Answer(c, frames[0]), frames[1..]);
      SettlesTrans(c, Answer(c, frames[0]), AnswerAll(c, frames));
    }
  }

  /** Failing every request in flight, in whatever order, empties the in-flight table. */
  lemma {:induction false} FailEachSettles(c: Client, ids: seq<Id>)
    requires Tables(c) && NoDuplicates(ids) && forall id: Id :: id in ids <==> id in c.original
    ensures Settles(c, FailEach(c, ids)) && FailEach(c, ids).original == map[]
    ensures FailEach(c, ids).deferredDeadlines == c.deferredDeadlines
    decreases |ids|
  {
    if ids != [] {
      var d := FailInFlight(c, ids[0]);
      FailSettles(c, ids[0]);
      FailEachSettles(d, ids[1..]);
      SettlesTrans(c, d, FailEach(c, ids));
    }
  }

  lemma {:induction false} ExpireInFlightSettles(c: Client)
    requires Tables(c) && Scheduled(c)
    ensures var d := ExpireInFlight(c);
      Settles(c, d) && d.deferredDeadlines == c.deferredDeadlines && forall e | e in d.deadlines :: e.deadline > c.now
    decreases |c.deadlines|
  {
    if c.deadlines != [] && c.deadlines[0].deadline <= c.now {
      ExpireFirstSettles(c);
      ExpireInFlightSettles(ExpireFirst(c));
      SettlesTrans(c, ExpireFirst(c), ExpireInFlight(c));
    }
  }

  lemma {:induction false} ExpireDeferredSettles(c: Client, now: nat)
    requires Tables(c) && Scheduled(c)
    ensures var d := ExpireDeferred(c, now);
      Settles(c, d) && d.deadlines == c.deadlines && forall e | e in d.deferredDeadlines :: e.deadline > now
    decreases |c.deferredDeadlines|
  {
    if c.deferredDeadlines != [] && c.deferredDeadlines[0].deadline <= now {
      FailFirstDeferredSettles(c);
      ExpireDeferredSettles(FailFirstDeferred(c), now);
      SettlesTrans(c, FailFirstDeferred(c), ExpireDeferred(c, now));
    }
  }

  lemma {:induction false} FailDeferredSettles(c: Client)
    requires Tables(c)
    ensures Settles(c, FailDeferred(c)) && FailDeferred(c).deferred == map[]
    decreases |c.deferredDeadlines|
  {
    if c.deferredDeadlines != [] {
      FailFirstDeferredSettles(c);
      FailDeferredSettles(FailFirstDeferred(c));
      SettlesTrans(c, FailFirstDeferred(c), FailDeferred(c));
    }
  }

  lemma {:induction false} PromoteSettles(c: Client, room: nat)
    requires Tables(c)
    ensures Settles(c, Promote(c, room))
    decreases room
  {
    if room > 0 && c.deferredDeadlines != [] {
      PromoteFirstSettles(c);
      var d := PromoteFirst(c);
      assert Promote(c, room) == Promote(d, room - 1);
      PromoteSettles(d, room - 1);
      SettlesTrans(c, d, Promote(d, room - 1));
    }
  }

  ghost predicate DeferredHaveBodies(c: Client) {
    && DistinctIds(c.deferredDeadlines)
    && forall e | e in c.deferredDeadlines :: e.id in c.deferred && |c.deferred[e.id]| >= 2
  }

  lemma {:induction false} PromoteTakes(c: Client, room: nat)
    requires DeferredHaveBodies(c)
    ensures Promote(c, room).deferredDeadlines == c.deferredDeadlines[Min(room, |c.deferredDeadlines|)..]
    decreases room
  {
    if room > 0 && c.deferredDeadlines != [] {
      assert c.deferredDeadlines[0] in c.deferredDeadlines;
      DistinctTail(c.deferredDeadlines);
      PromoteTakes(PromoteFirst(c), room - 1);
      Tail(c.deferredDeadlines, Min(room, |c.deferredDeadlines|));
    }
  }

  /** The loop sends from the earliest deadline on, and stops only when out of room or of requests. */
  lemma DeferredGoInOrder(c: Client, room: nat)
    requires Tables(c) && Scheduled(c)
    ensures Promote(c, room).deferredDeadlines == c.deferredDeadlines[Min(room, |c.deferredDeadlines|)..]
    ensures forall e | e in Promote(c, room).deferredDeadlines ::
              forall k | 0 <= k < Min(room, |c.deferredDeadlines|) :: c.deferredDeadlines[k].deadline <= e.deadline
  {
    assert DeferredHaveBodies(c);
    PromoteTakes(c, room);
  }

  lemma Tail(es: seq<Entry>, n: nat)
    requires 0 < n <= |es|
    ensures es[n..] == es[1..][n - 1..]
  {
  }

  lemma RearmArms(c: Client)
    requires Scheduled(c.(timer := None)) && forall e | HasEntry(c, e) :: e.deadline > c.now
    ensures Scheduled(Rearm(c)) && Armed(Rearm(c))
  {
    if c.deadlines != [] {
      assert HasEntry(c, c.deadlines[0]);
    }
    if c.deferredDeadlines != [] {
      assert HasEntry(c, c.deferredDeadlines[0]);
    }
  }

  // ---- Every event keeps the invariant ----

  lemma SettledInv(c: Client, d: Client)
    requires Inv(c) && Settles(c, d)
    ensures Inv(d)
  {
  }

  lemma LaterInv(c: Client, at: nat, id: Id)
    requires Inv(c) && at >= c.now
    ensures Inv(c.(now := at, nextId := id))
  {
  }

  lemma SendKeeps(c: Client, e: Event)
    requires Inv(c) && e.Send? && e.at >= c.now
    ensures Inv(Next(c, e))
  {
    var id := c.nextId;
    LaterInv(c, e.at, Following(id));
    if |e.request| >= 2 && id !in c.original && id !in c.deferred {
      var d := c.(now := e.at, nextId := Following(id));
      var d' := if e.tcp && d.socket == Closed && e.connectOk then d.(socket := Connecting) else d;
      assert Inv(d');
      if !e.tcp || (d.socket == Connected && e.writable) {
        AcceptWritten(d', id, e.request, e.tcp);
        AcceptTimes(d', id, e.request, e.tcp, true);
      } else {
        AcceptDeferred(d', id, e.request, e.tcp);
        AcceptTimes(d', id, e.request, e.tcp, false);
      }
    }
  }

  lemma TcpClosedKeeps(c: Client, e: Event)
    requires Inv(c) && e.TcpClosed? && Enabled(c, e)
    ensures Inv(Next(c, e))
  {
    FailEachSettles(c, e.order);
    SettledInv(c, FailEach(c, e.order));
  }

  lemma ConnectFailedKeeps(c: Client)
    requires Inv(c)
    ensures Inv(Next(c, ConnectFailed))
  {
    FailDeferredSettles(c);
    SettledInv(c, FailDeferred(c));
  }

  lemma TablesRead(c: Client, d: Client)
    requires Tables(c) && d == c.(now := d.now, timer := d.timer)
    ensures Tables(d)
  {
  }

  lemma TimeoutKeeps(c: Client, at: nat)
    requires Inv(c) && at >= c.now
    ensures var d := Next(c, Timeout(at)); Inv(d) && forall e | HasEntry(d, e) :: e.deadline > at
  {
    var c0 := c.(now := at, timer := None);
    TablesRead(c, c0);
    assert Scheduled(c0);
    FiredKeeps(c0);
  }

  lemma FiredKeeps(c: Client)
    requires Tables(c) && Scheduled(c) && c.timer == None
    ensures var d := Rearm(ExpireDeferred(ExpireInFlight(c), c.now)); Inv(d) && forall e | HasEntry(d, e) :: e.deadline > c.now
  {
    var d := ExpireDeferred(ExpireInFlight(c), c.now);
    ExpireBoth(c);
    TimeoutArms(d);
    TablesRead(d, Rearm(d));
  }

  lemma ExpireBoth(c: Client)
    requires Tables(c) && Scheduled(c)
    ensures var d := ExpireDeferred(ExpireInFlight(c), c.now);
      && Tables(d) && Scheduled(d) && d.timer == c.timer && d.now == c.now
      && (forall e | e in d.deadlines :: e.deadline > c.now) && forall e | e in d.deferredDeadlines :: e.deadline > c.now
  {
    ExpireInFlightSettles(c);
    ExpireDeferredSettles(ExpireInFlight(c), c.now);
  }

  lemma TimeoutArms(c: Client)
    requires Scheduled(c) && c.timer == None
    requires (forall e | e in c.deadlines :: e.deadline > c.now) && forall e | e in c.deferredDeadlines :: e.deadline > c.now
    ensures var d := Rearm(c); Scheduled(d) && Armed(d) && d == c.(timer := d.timer) && forall e | HasEntry(d, e) :: e.deadline > c.now
  {
    assert c.(timer := None) == c;
    RearmArms(c);
  }

  lemma NextKeeps(c: Client, e: Event)
    requires Inv(c) && Enabled(c, e)
    ensures Inv(Next(c, e))
  {
    match e
    case Send(_, _, _, _, _) => SendKeeps(c, e);
    case TcpData(data) =>
      var frames := F.Parse(c.held + data).messages;
      AnswerAllSettles(c, frames);
      SettledInv(c, AnswerAll(c, frames));
    case TcpClosed(_, _) => TcpClosedKeeps(c, e);
    case UdpData(response) =>
      AnswerSettles(c, response);
      SettledInv(c, Answer(c, response));
    case ConnectOk(room) =>
      var d := c.(socket := Connected);
      assert Inv(d);
      PromoteSettles(d, room);
      SettledInv(d, Promote(d, room));
    case ConnectFailed => ConnectFailedKeeps(c);
    case Flushed(room) =>
      PromoteSettles(c, room);
      SettledInv(c, Promote(c, room));
    case Timeout(at) => TimeoutKeeps(c, at);
  }

  // ---- Runs ----

  ghost predicate Possible(c: Client, events: seq<Event>)
    decreases |events|
  {
    events == [] || (Enabled(c, events[0]) && Possible(Next(c, events[0]), events[1..]))
  }

  function After(c: Client, events: seq<Event>): Client
    decreases |events|
  {
    if events == [] then c else After(Next(c, events[0]), events[1..])
  }

  lemma {:induction false} InvAlways(c: Client, events: seq<Event>)
    requires Inv(c) && Possible(c, events)
    ensures Inv(After(c, events))
    decreases |events|
  {
    if events != [] {
      NextKeeps(c, events[0]);
      InvAlways(Next(c, events[0]), events[1..]);
    }
  }

  /** A delivered reply is the wire reply with the request's own transaction id put back. */
  lemma ReplyIsWireReply(c: Client, frame: seq<byte>)
    requires Tables(c) && |frame| >= 2 && GetU16(frame) in c.original
    ensures var id: Id := GetU16(frame);
      exists reply :: && Answer(c, frame).log == c.log + [Responded(id, Some(reply))]
                      && |reply| == |frame| && reply[2..] == frame[2..] && reply[..2] == Track(c.log).value[id].bytes[..2]
  {
    var id: Id := GetU16(frame);
    var reply := c.original[id] + frame[2..];
    assert |c.original[id]| == 2;
    assert Answer(c, frame).log == c.log + [Responded(id, Some(reply))] && reply[2..] == frame[2..];
  }

  // ---- What is in flight has been written ----

  ghost predicate WrittenAs(sent: seq<Sent>, id: Id, original: seq<byte>, request: seq<byte>) {
    && |request| >= 2 && request[..2] == original
    && (Tcp(TcpBytes(id, request)) in sent || Udp(UdpBytes(id, request)) in sent)
  }

  ghost predicate Written(c: Client) {
    forall id | id in c.original :: exists request :: WrittenAs(c.sent, id, c.original[id], request)
  }

  lemma WrittenLess(c: Client, d: Client)
    requires Written(c) && d.sent == c.sent
    requires forall id | id in d.original :: id in c.original && d.original[id] == c.original[id]
    ensures Written(d)
  {
  }

  lemma WrittenMore(c: Client, d: Client, id: Id, request: seq<byte>, tcp: bool)
    requires Written(c) && |request| >= 2 && d.original == c.original[id := request[..2]]
    requires d.sent == c.sent + [if tcp then Tcp(TcpBytes(id, request)) else Udp(UdpBytes(id, request))]
    ensures Written(d)
  {
    assert WrittenAs(d.sent, id, d.original[id], request);
    forall x | x in d.original && x != id ensures exists r :: WrittenAs(d.sent, x, d.original[x], r) {
      var r :| WrittenAs(c.sent, x, c.original[x], r);
      assert WrittenAs(d.sent, x, d.original[x], r);
    }
  }

  lemma {:induction false} AnswerAllWritten(c: Client, frames: seq<seq<byte>>)
    requires Written(c)
    ensures Written(AnswerAll(c, frames))
    decreases |frames|
  {
    if frames != [] {
      WrittenLess(c, Answer(c, frames[0]));
      AnswerAllWritten(Answer(c, frames[0]), frames[1..]);
    }
  }

  lemma {:induction false} PromoteWritten(c: Client, room: nat)
    requires Written(c)
    ensures Written(Promote(c, room))
    decreases room
  {
    if room > 0 && Promotable(c) {
      var e := c.deferredDeadlines[0];
      WrittenMore(c, PromoteFirst(c), e.id, c.deferred[e.id], true);
      PromoteWritten(PromoteFirst(c), room - 1);
    }
  }

  lemma {:induction false} ExpireWritten(c: Client)
    requires Written(c)
    ensures Written(ExpireInFlight(c))
    decreases |c.deadlines|
  {
    if c.deadlines != [] && c.deadlines[0].deadline <= c.now {
      WrittenLess(c, ExpireFirst(c));
      ExpireWritten(ExpireFirst(c));
    }
  }

  lemma {:induction false} DeferredUnwritten(c: Client, now: nat)
    ensures ExpireDeferred(c, now).original == c.original && ExpireDeferred(c, now).sent == c.sent
    ensures FailDeferred(c).original == c.original && FailDeferred(c).sent == c.sent
    decreases |c.deferredDeadlines|
  {
    if c.deferredDeadlines != [] {
      DeferredUnwritten(FailFirstDeferred(c), now);
    }
  }

  lemma SendWritten(c: Client, e: Event)
    requires Written(c) && e.Send?
    ensures Written(Next(c, e))
  {
    var id := c.nextId;
    if |e.request| >= 2 && id !in c.original && id !in c.deferred {
      if !e.tcp || (c.socket == Connected && e.writable) {
        WrittenMore(c, Next(c, e), id, e.request, e.tcp);
      } else {
        WrittenLess(c, Next(c, e));
      }
    } else {
      WrittenLess(c, Next(c, e));
    }
  }

  lemma NextWritten(c: Client, e: Event)
    requires Written(c)
    ensures Written(Next(c, e))
  {
    match e
    case Send(_, _, _, _, _) => SendWritten(c, e);
    case TcpData(data) =>
      var frames := F.Parse(c.held + data).messages;
      AnswerAllWritten(c, frames);
      WrittenLess(AnswerAll(c, frames), Next(c, e));
    case TcpClosed(_, _) =>
    case UdpData(response) => WrittenLess(c, Answer(c, response));
    case ConnectOk(room) =>
      WrittenLess(c, c.(socket := Connected));
      PromoteWritten(c.(socket := Connected), room);
    case ConnectFailed =>
      DeferredUnwritten(c, 0);
      WrittenLess(c, Next(c, e));
    case Flushed(room) => PromoteWritten(c, room);
    case Timeout(at) =>
      var c0 := c.(now := at, timer := None);
      WrittenLess(c, c0);
      ExpireWritten(c0);
      DeferredUnwritten(ExpireInFlight(c0), at);
      WrittenLess(ExpireInFlight(c0), Next(c, e));
  }

  /** Whatever happens, a request in flight has been written to a socket, under its id. */
  lemma {:induction false} InFlightWasWritten(c: Client, events: seq<Event>)
    requires Written(c)
    ensures Written(After(c, events))
    decreases |events|
  {
    if events != [] {
      NextWritten(c, events[0]);
      InFlightWasWritten(Next(c, events[0]), events[1..]);
    }
  }

  /** Whatever happens, every id handed out is answered once, or is in exactly one of the two tables. */
  lemma OneResponse(c: Client, events: seq<Event>, id: Id)
    requires Initial(c) && Possible(c, events)
    ensures var d := After(c, events);
      && Track(d.log).Some?
      && Count(d.log, id, false) ==
           Count(d.log, id, true) + (if id in d.original then 1 else 0) + (if id in d.deferred then 1 else 0)
  {
    InvAlways(c, events);
    TrackMeans(After(c, events).log, id);
  }

  /** An unanswered request has its deadline in one of the tables. */
  lemma HasDeadline(c: Client, id: Id)
    requires Tables(c) && (id in c.original || id in c.deferred || id in Track(c.log).value)
    ensures id in Track(c.log).value && HasEntry(c, Entry(Track(c.log).value[id].at + c.timeout, id))
  {
  }

  /** Whatever happens, a request waiting for an answer has the timer set for its deadline or earlier. */
  lemma NobodyForgotten(c: Client, events: seq<Event>, id: Id)
    requires Initial(c) && Possible(c, events)
    ensures var d := After(c, events); id in d.original || id in d.deferred ==>
      Track(d.log).Some? && id in Track(d.log).value && d.timer.Some?
      && d.timer.value <= Track(d.log).value[id].at + d.timeout
  {
    InvAlways(c, events);
    var d := After(c, events);
    if id in d.original || id in d.deferred {
      HasDeadline(d, id);
    }
  }

  /** Whatever happened before, when the timer fires nothing that is overdue is left unanswered. */
  lemma TimerAnswers(c: Client, events: seq<Event>, at: nat, id: Id)
    requires Initial(c) && Possible(c, events + [Timeout(at)])
    ensures var d := Next(After(c, events), Timeout(at));
      Track(d.log).Some? && (id in Track(d.log).value ==> Track(d.log).value[id].at + d.timeout > at)
  {
    AfterSnoc(c, events, Timeout(at));
    InvAlways(c, events);
    TimeoutKeeps(After(c, events), at);
    var d := Next(After(c, events), Timeout(at));
    if id in Track(d.log).value {
      HasDeadline(d, id);
    }
  }

  lemma {:induction false} AfterSnoc(c: Client, events: seq<Event>, e: Event)
    requires Possible(c, events + [e])
    ensures Possible(c, events) && Enabled(After(c, events), e)
    decreases |events|
  {
    assert (events + [e])[0] == if events == [] then e else events[0];
    if events != [] {
      assert (events + [e])[1..] == events[1..] + [e];
      AfterSnoc(Next(c, events[0]), events[1..], e);
    }
  }

  // ---- The object ----

  class DnsClient {
    const timeout: nat
    const decoder: F.ClientDecoder
    var now: nat
    var nextRequestId: Id
    var original: map<Id, seq<byte>>
    var deadlines: seq<Entry>
    var deferredDeadlines: seq<Entry>
    var deferred: map<Id, seq<byte>>
    var socket: Socket
    var timer: Option<nat>
    var sent: seq<Sent>
    var log: seq<Act>

    ghost var held: seq<byte>                  // what `decoder` is holding

    ghost predicate Valid()
      reads this, decoder
    {
      decoder.Valid() && decoder.Held() == held
    }

    ghost function View(): Client
      reads this
    {
      Client(timeout, now, nextRequestId, original, deadlines, deferredDeadlines, deferred, socket, timer,
             held, sent, log)
    }

    constructor (timeout: nat)
      ensures fresh(decoder) && Valid() && Initial(View()) && View().timeout == timeout
    {
      this.timeout := timeout;
      decoder := new F.ClientDecoder();
      now, nextRequestId, original, deadlines := 0, 0, map[], [];
      deferredDeadlines, deferred, socket, timer, sent, log, held := [], map[], Closed, None, [], [], [];
    }

    /** `connect_socket`; `ok` says whether the connection could be started. */
    method ConnectSocket(ok: bool)
      modifies this`socket
      ensures socket == if ok then Connecting else Closed
    {
      socket := if ok then Connecting else Closed;
    }

    /** `send_request`. */
    method SendRequest(request: seq<byte>, id: Id, tcp: bool, connectOk: bool, writable: bool) returns (ok: bool)
      requires |request| >= 2
      modifies this`socket, this`sent, this`original
      ensures ok <==> !tcp || (old(socket) == Connected && writable)
      ensures socket == if tcp && old(socket) == Closed && connectOk then Connecting else old(socket)
      ensures original == if ok then old(original)[id := request[..2]] else old(original)
      ensures sent == if ok then old(sent) + [if tcp then Tcp(TcpBytes(id, request)) else Udp(UdpBytes(id, request))]
                      else old(sent)
    {
      if tcp {
        if socket != Connected {
          if socket != Connecting {
            ConnectSocket(connectOk);
          }
          return false;
        }
        if !writable {
          return false;
        }
        sent := sent + [Tcp(PutU16(|request| % 0x1_0000) + PutU16(id) + request[2..])];
      } else {
        sent := sent + [Udp(PutU16(id) + request[2..Min(|request|, UDP_MAX)])];
      }
      original := original[id := request[..2]];
      return true;
    }

    /** `send`. */
    method Send(request: seq<byte>, tcp: bool, at: nat, connectOk: bool, writable: bool) returns (r: Option<Id>)
      modifies this`now, this`nextRequestId, this`original, this`deadlines, this`deferredDeadlines, this`deferred,
               this`socket, this`timer, this`sent, this`log
      ensures View() == Next(old(View()), Event.Send(request, tcp, at, connectOk, writable))
      ensures r == if |request| < 2 || old(nextRequestId) in old(original) || old(nextRequestId) in old(deferred) then None
                   else Some(old(nextRequestId))
    {
      var id := nextRequestId;
      nextRequestId, now := Following(id), at;
      if |request| < 2 || id in original || id in deferred {
        return None;
      }
      var ok := SendRequest(request, id, tcp, connectOk, writable);
      FinishSend(id, request, ok);
      return Some(id);
    }

    /** The rest of `send`: the deadline, the deferred body and the timer. */
    method FinishSend(id: Id, request: seq<byte>, written: bool)
      modifies this`deadlines, this`deferredDeadlines, this`deferred, this`timer, this`log
      ensures View() == Enqueue(old(View()), id, request, written)
    {
      var entry := Entry(now + timeout, id);
      if timer.None? {
        timer := Some(now + Millis(timeout));
      }
      log := log + [Accepted(id, now, request)];
      if written {
        deadlines := Insert(deadlines, entry);
      } else {
        deferredDeadlines := Insert(deferredDeadlines, entry);
        deferred := deferred[id := request];
      }
    }

    /** `on_udp_read`, and what the TCP side does with each frame. */
    method OnUdpRead(response: seq<byte>)
      modifies this`original, this`log
      ensures View() == Answer(old(View()), response)
    {
      if |response| >= 2 {
        var id: Id := GetU16(response);
        if id in original {
          log := log + [Responded(id, Some(original[id] + response[2..]))];
          original := original - {id};
        }
      }
    }

    /** `on_tcp_read` with bytes. */
    method OnTcpData(data: seq<byte>)
      requires Valid()
      modifies this`original, this`log, this`held, decoder
      ensures Valid() && View() == Next(old(View()), TcpData(data))
    {
      var frames := decoder.Receive(data);
      held := decoder.Held();
      AnswerAllHeld(old(View()), frames, held);
      AnswerFrames(frames);
    }

    method AnswerFrames(frames: seq<seq<byte>>)
      modifies this`original, this`log
      ensures View() == AnswerAll(old(View()), frames)
    {
      var i := 0;
      while i < |frames|
        modifies this`original, this`log
        invariant i <= |frames|
        invariant AnswerAll(View(), frames[i..]) == AnswerAll(old(View()), frames)
      {
        assert frames[i..][1..] == frames[i + 1..];
        OnUdpRead(frames[i]);
        i := i + 1;
      }
    }

    /** `on_tcp_read` without bytes: the peer closed. `order` is the order the callbacks came in. */
    method OnTcpClosed(connectOk: bool) returns (ghost order: seq<Id>)
      modifies this`original, this`deadlines, this`socket, this`log
      ensures NoDuplicates(order) && forall id: Id :: id in order <==> id in old(original)
      ensures View() == Next(old(View()), TcpClosed(order, connectOk))
    {
      order := [];
      var left := original;
      while left != map[]
        modifies this`log
        invariant NoDuplicates(order) && forall id: Id :: id in old(original) <==> id in left || id in order
        invariant forall id | id in order :: id !in left
        invariant log == FailEach(old(View()), order).log
        decreases |left|
      {
        var id :| id in left;
        FailEachSnoc(old(View()), order, id);
        log := log + [Responded(id, None)];
        left, order := left - {id}, order + [id];
      }
      FailEachFrame(old(View()), order);
      deadlines, original, socket := [], map[], Closed;
      if deferredDeadlines != [] {
        ConnectSocket(connectOk);
      }
    }

    method FailFirst()
      requires deferredDeadlines != []
      modifies this`deferred, this`deferredDeadlines, this`log
      ensures View() == FailFirstDeferred(old(View()))
    {
      var id := deferredDeadlines[0].id;
      if id in deferred {
        deferred := deferred - {id};
        log := log + [Responded(id, None)];
      }
      deferredDeadlines := deferredDeadlines[1..];
    }

    /** `on_connected` with an error. */
    method OnConnectFailed()
      modifies this`socket, this`deferred, this`deferredDeadlines, this`log
      ensures View() == Next(old(View()), ConnectFailed)
    {
      while deferredDeadlines != []
        modifies this`deferred, this`deferredDeadlines, this`log
        invariant FailDeferred(View()) == FailDeferred(old(View()))
        decreases |deferredDeadlines|
      {
        FailFirst();
      }
      deferred, socket := map[], Closed;
    }

    /** `send_deferred_requests`; the socket takes `room` more requests before it blocks. */
    method SendDeferredRequests(room: nat)
      requires socket == Connected && Tables(View())
      modifies this`deferred, this`deferredDeadlines, this`deadlines, this`original, this`sent, this`socket
      ensures View() == Promote(old(View()), room)
    {
      var left := room;
      while deferredDeadlines != []
        modifies this`deferred, this`deferredDeadlines, this`deadlines, this`original, this`sent, this`socket
        invariant socket == Connected && Tables(View()) && left >= 0
        invariant Promote(View(), left) == Promote(old(View()), room)
        decreases |deferredDeadlines|
      {
        PromoteFirstTables(View());
        var ok := SendFirst(left > 0);
        if !ok {
          break;
        }
        left := left - 1;
      }
    }

    method SendFirst(writable: bool) returns (ok: bool)
      requires socket == Connected && Promotable(View())
      modifies this`deferred, this`deferredDeadlines, this`deadlines, this`original, this`sent, this`socket
      ensures ok == writable
      ensures View() == if ok then PromoteFirst(old(View())) else old(View())
    {
      var entry := deferredDeadlines[0];
      ok := SendRequest(deferred[entry.id], entry.id, true, true, writable);
      if ok {
        deferred := deferred - {entry.id};
        deadlines := Insert(deadlines, entry);
        deferredDeadlines := deferredDeadlines[1..];
      }
    }

    /** `on_connected` without an error. */
    method OnConnected(room: nat)
      requires socket == Connecting && Tables(View())
      modifies this`deferred, this`deferredDeadlines, this`deadlines, this`original, this`sent, this`socket
      ensures View() == Next(old(View()), ConnectOk(room))
    {
      socket := Connected;
      assert Tables(View());
      SendDeferredRequests(room);
    }

    /** `timer_handler`. */
    method OnTimer(at: nat)
      modifies this`now, this`timer, this`original, this`deadlines, this`deferred, this`deferredDeadlines, this`log
      ensures View() == Next(old(View()), Timeout(at))
    {
      timer, now := None, at;
      FailOverdue();
      FailOverdueDeferred();
      SetTimer();
    }

    method SetTimer()
      requires timer == None
      modifies this`timer
      ensures View() == Rearm(old(View()))
    {
      var next := if deadlines == [] then deferredDeadlines
                  else if deferredDeadlines == [] then deadlines
                  else if deadlines[0].deadline <= deferredDeadlines[0].deadline then deadlines
                  else deferredDeadlines;
      if next != [] {
        timer := if next[0].deadline < now then Some(now) else Some(now + Millis(next[0].deadline - now));
      }
    }

    method FailOverdue()
      modifies this`original, this`deadlines, this`log
      ensures View() == ExpireInFlight(old(View()))
    {
      while deadlines != [] && deadlines[0].deadline <= now
        modifies this`original, this`deadlines, this`log
        invariant ExpireInFlight(View()) == ExpireInFlight(old(View()))
        decreases |deadlines|
      {
        var id := deadlines[0].id;
        if id in original {
          original := original - {id};
          log := log + [Responded(id, None)];
        }
        deadlines := deadlines[1..];
      }
    }

    method FailOverdueDeferred()
      modifies this`deferred, this`deferredDeadlines, this`log
      ensures View() == ExpireDeferred(old(View()), now)
    {
      while deferredDeadlines != [] && deferredDeadlines[0].deadline <= now
        modifies this`deferred, this`deferredDeadlines, this`log
        invariant ExpireDeferred(View(), now) == ExpireDeferred(old(View()), now)
        decreases |deferredDeadlines|
      {
        FailFirst();
      }
    }
  }

  lemma {:induction false} AnswerAllHeld(c: Client, frames: seq<seq<byte>>, held: seq<byte>)
    ensures AnswerAll(c.(held := held), frames) == AnswerAll(c, frames).(held := held)
    decreases |frames|
  {
    if frames != [] {
      AnswerAllHeld(Answer(c, frames[0]), frames[1..], held);
    }
  }

  lemma {:induction false} FailEachSnoc(c: Client, ids: seq<Id>, id: Id)
    ensures FailEach(c, ids + [id]) == FailInFlight(FailEach(c, ids), id)
    decreases |ids|
  {
    if ids == [] {
      assert [id][1..] == [];
    } else {
      FailEachSnoc(FailInFlight(c, ids[0]), ids[1..], id);
      assert (ids + [id])[1..] == ids[1..] + [id];
    }
  }

  lemma {:induction false} FailEachFrame(c: Client, ids: seq<Id>)
    ensures var d := FailEach(c, ids); d == c.(original := d.original, log := d.log)
    decreases |ids|
  {
    if ids != [] {
      FailEachFrame(FailInFlight(c, ids[0]), ids[1..]);
    }
  }
}
