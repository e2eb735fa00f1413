/**
 * The UDP-over-HTTP multiplexer: connection tables and the receive state machine.
 *
 * `ByteRun` is the receive machine one byte at a time; `HttpUdpMultiplexer.ProcessReadEvent` is
 * the source's loop, which works on whole chunks, and refines it. A schedule (`Act`) interleaves
 * bytes and table operations freely, so it also covers operations made from inside the read
 * callback.
 */
module UdpMux {
  import opened Prelude
  import opened UdpWire

  type Id = nat
  const NON_ID: Id := 0xFFFF_FFFF_FFFF_FFFF

  datatype RecvState = Idle | Payload | Dropping

  datatype Recv = Recv(state: RecvState, id: Id, left: nat, buffer: seq<byte>)

  const EMPTY: Recv := Recv(Idle, NON_ID, 0, [])

  datatype Conn = Conn(addr: AddressPair, readEnabled: bool, ready: bool)

  datatype Mux = Mux(
    established: bool,
    connections: map<Id, Conn>,
    addrToId: map<AddressPair, Id>,
    recv: Recv)

  // SERVER_EVENT_READ, with the address of the connection it is raised for.
  datatype Event = Read(id: Id, payload: seq<byte>, addr: Option<AddressPair>)

  datatype Op =
    | Open(id: Id, addr: AddressPair, granted: bool)   // open_connection; `granted` if a stream can be requested
    | Opened(id: Id)                    // complete_udp_connection
    | Close(id: Id)                     // clean_connection_data: closed, timed out
    | SetRead(id: Id, on: bool)         // set_read_enabled
    | Reset                             // the HTTP stream is gone

  function Apply(m: Mux, op: Op): Mux {
    match op
    case Open(id, addr, granted) =>
      if id in m.connections || (!m.established && !granted) then m
      else m.(established := true, connections := m.connections[id := Conn(addr, false, false)])
    case Opened(id) =>
      if !m.established || id !in m.connections then m
      else m.(addrToId := m.addrToId[m.connections[id].addr := id],
              connections := m.connections[id := m.connections[id].(ready := true)])
    case Close(id) =>
      if id !in m.connections then m
      else m.(recv := if m.recv.id == id then m.recv.(state := Dropping) else m.recv,
              addrToId := m.addrToId - {m.connections[id].addr},
              connections := m.connections - {id})
    case SetRead(id, on) =>
      if id !in m.connections then m
      else m.(connections := m.connections[id := m.connections[id].(readEnabled := on)])
    case Reset => m.(established := false, addrToId := map[], recv := EMPTY)
  }

  datatype PacketInfo = PacketInfo(id: Id, payloadLength: nat)

  function ReadPrefix(addrToId: map<AddressPair, Id>, prefix: seq<byte>): PacketInfo
    requires |prefix| == PREFIX_SIZE
  {
    var length := PrefixLength(prefix);
    if length < PREFIX_SIZE - LENGTH_SIZE || length > MAX_IN_PACKET_LENGTH then PacketInfo(NON_ID, 0)
    else
      var key := AddressPair(PrefixDestination(prefix), PrefixSource(prefix));
      PacketInfo(if key in addrToId then addrToId[key] else NON_ID, length - (PREFIX_SIZE - LENGTH_SIZE))
  }

  predicate Dropped(m: Mux, id: Id) {
    id == NON_ID || id !in m.connections || !m.connections[id].readEnabled
  }

  /** The state after a complete prefix. */
  function Begin(m: Mux, prefix: seq<byte>): Mux
    requires |prefix| == PREFIX_SIZE
  {
    var info := ReadPrefix(m.addrToId, prefix);
    m.(recv := if Dropped(m, info.id) then Recv(Dropping, m.recv.id, info.payloadLength, [])
               else Recv(Payload, info.id, info.payloadLength, []))
  }

  /** The callback made when the last byte of a packet has been handled. */
  function Finish(m: Mux): seq<Event> {
    if m.recv.state != Payload then []
    else [Read(m.recv.id, m.recv.buffer,
               if m.recv.id in m.connections then Some(m.connections[m.recv.id].addr) else None)]
  }

  predicate AtEnd(m: Mux) {
    m.recv.state != Idle && m.recv.left == 0
  }

  /** A packet without payload is only finished when more data arrives. */
  function Settle(m: Mux): Mux {
    if AtEnd(m) then m.(recv := EMPTY) else m
  }

  function Pending(m: Mux): seq<Event> {
    if AtEnd(m) then Finish(m) else []
  }

  datatype Outcome = Outcome(m: Mux, events: seq<Event>)

  function Absorb(m: Mux, x: byte): Mux
    requires !AtEnd(m)
  {
    var r := m.recv;
    match r.state
    case Idle =>
      if |r.buffer| + 1 == PREFIX_SIZE then Begin(m, r.buffer + [x])
      else m.(recv := r.(buffer := r.buffer + [x]))
    case Payload => m.(recv := r.(left := r.left - 1, buffer := r.buffer + [x]))
    case Dropping => m.(recv := r.(left := r.left - 1))
  }

  function ByteStep(m: Mux, x: byte): Outcome {
    var settled := Settle(m);
    var absorbed := Absorb(settled, x);
    if settled.recv.state != Idle && AtEnd(absorbed)
    then Outcome(Settle(absorbed), Pending(m) + Pending(absorbed))
    else Outcome(absorbed, Pending(m))
  }

  function ByteRun(m: Mux, data: seq<byte>): Outcome
    decreases |data|
  {
    if data == [] then Outcome(m, [])
    else
      var first := ByteStep(m, data[0]);
      var rest := ByteRun(first.m, data[1..]);
      Outcome(rest.m, first.events + rest.events)
  }

  /** Demultiplexing does not depend on how the stream is cut into chunks. */
  lemma {:induction false} ByteRunConcat(m: Mux, a: seq<byte>, b: seq<byte>)
    ensures var first := ByteRun(m, a); var second := ByteRun(first.m, b);
            ByteRun(m, a + b) == Outcome(second.m, first.events + second.events)
    decreases |a|
  {
    if a == [] {
      assert a + b == b;
    } else {
      var first := ByteStep(m, a[0]);
      assert (a + b)[0] == a[0] && (a + b)[1..] == a[1..] + b;
      ByteRunConcat(first.m, a[1..], b);
      Assoc(first.events, ByteRun(first.m, a[1..]).events, ByteRun(ByteRun(m, a).m, b).events);
    }
  }

  // ---- Runs of bytes that stay within one part of a packet ----

  lemma {:induction false} PrefixRun(m: Mux, xs: seq<byte>)
    requires m.recv.state == Idle && |m.recv.buffer| + |xs| <= PREFIX_SIZE && |m.recv.buffer| < PREFIX_SIZE
    ensures ByteRun(m, xs) ==
            Outcome(if |m.recv.buffer| + |xs| == PREFIX_SIZE then Begin(m, m.recv.buffer + xs)
                    else m.(recv := m.recv.(buffer := m.recv.buffer + xs)), [])
    decreases |xs|
  {
    if xs == [] {
      assert m.recv.buffer + xs == m.recv.buffer;
    } else {
      assert m.recv.buffer + xs == m.recv.buffer + [xs[0]] + xs[1..];
      if |xs| == 1 {
        assert xs[1..] == [] && m.recv.buffer + xs == m.recv.buffer + [xs[0]];
      } else {
        var m1 := ByteStep(m, xs[0]).m;
        PrefixRun(m1, xs[1..]);
        assert m1.recv.buffer + xs[1..] == m.recv.buffer + xs;
      }
    }
  }

  /** The receive state after `xs` of a packet body. */
  function BodyAfter(m: Mux, xs: seq<byte>): Mux
    requires m.recv.state != Idle && |xs| <= m.recv.left
  {
    m.(recv := m.recv.(left := m.recv.left - |xs|,
                       buffer := if m.recv.state == Payload then m.recv.buffer + xs else m.recv.buffer))
  }

  lemma {:induction false} BodyRun(m: Mux, xs: seq<byte>)
    requires m.recv.state != Idle && 0 < |xs| <= m.recv.left
    ensures ByteRun(m, xs) == Outcome(Settle(BodyAfter(m, xs)), Pending(BodyAfter(m, xs)))
    decreases |xs|
  {
    var first := ByteStep(m, xs[0]);
    if |xs| == 1 {
      assert xs == [xs[0]] && xs[1..] == [];
    } else {
      BodyRun(first.m, xs[1..]);
      assert m.recv.buffer + [xs[0]] + xs[1..] == m.recv.buffer + xs;
      assert BodyAfter(first.m, xs[1..]) == BodyAfter(m, xs);
    }
  }

  lemma SettleRun(m: Mux, data: seq<byte>)
    requires AtEnd(m) && data != []
    ensures ByteRun(m, data).m == ByteRun(Settle(m), data).m
    ensures ByteRun(m, data).events == Pending(m) + ByteRun(Settle(m), data).events
  {
    var first, settled := ByteStep(m, data[0]), ByteStep(Settle(m), data[0]);
    assert first.m == settled.m && first.events == Pending(m) + settled.events;
  }

  // ---- Table safety ----

  /**
   * The address index names live connections under their own address, and a packet body is only
   * received for a live connection.
   */
  ghost predicate Good(m: Mux) {
    && NON_ID !in m.connections
    && (forall a | a in m.addrToId ::
          m.addrToId[a] in m.connections && m.connections[m.addrToId[a]].addr == a)
    && (m.recv.state == Idle ==> m.recv == EMPTY.(buffer := m.recv.buffer) && |m.recv.buffer| < PREFIX_SIZE)
    && (m.recv.state == Payload ==> m.recv.id in m.connections)
  }

  lemma ApplyGood(m: Mux, op: Op)
    requires Good(m) && (op.Open? ==> op.id != NON_ID)
    ensures Good(Apply(m, op))
  {
  }

  lemma ByteGood(m: Mux, x: byte)
    requires Good(m)
    ensures Good(ByteStep(m, x).m)
    ensures forall e | e in ByteStep(m, x).events :: e.addr.Some?
  {
  }

  /** An indexed id is live, so the branch for an id missing from the connection table is dead. */
  lemma IndexedIsLive(m: Mux, prefix: seq<byte>)
    requires Good(m) && |prefix| == PREFIX_SIZE
    ensures var id := ReadPrefix(m.addrToId, prefix).id; id == NON_ID || id in m.connections
  {
  }

  // A schedule: the bytes of the stream and the table operations, in the order they happen.
  datatype Act = Byte(x: byte) | Table(op: Op)

  predicate Legal(a: Act) {
    a.Table? && a.op.Open? ==> a.op.id != NON_ID
  }

  function Step(m: Mux, a: Act): Outcome {
    match a
    case Byte(x) => ByteStep(m, x)
    case Table(op) => Outcome(Apply(m, op), [])
  }

  function Play(m: Mux, acts: seq<Act>): Outcome
    decreases |acts|
  {
    if acts == [] then Outcome(m, [])
    else
      var first := Step(m, acts[0]);
      var rest := Play(first.m, acts[1..]);
      Outcome(rest.m, first.events + rest.events)
  }

  /** Table safety over every schedule; every callback is made for a live connection. */
  lemma {:induction false} AlwaysGood(m: Mux, acts: seq<Act>)
    requires Good(m) && forall a | a in acts :: Legal(a)
    ensures Good(Play(m, acts).m)
    ensures forall e | e in Play(m, acts).events :: e.addr.Some?
    decreases |acts|
  {
    if acts != [] {
      assert Legal(acts[0]);
      match acts[0] {
        case Byte(x) => ByteGood(m, x);
        case Table(op) => ApplyGood(m, op);
      }
      AlwaysGood(Step(m, acts[0]).m, acts[1..]);
    }
  }

  // ---- Connections that share an address pair ----

  /** Every opened connection is reachable through the index. */
  ghost predicate Complete(m: Mux) {
    forall id | id in m.connections && m.connections[id].ready :: Indexed(m, id)
  }

  predicate Indexed(m: Mux, id: Id) {
    id in m.connections && m.connections[id].addr in m.addrToId && m.addrToId[m.connections[id].addr] == id
  }

  /**
   * Closing a connection keeps the others reachable if and only if none of them uses its address
   * pair: the index entry is erased by address, whichever connection it names.
   */
  lemma CloseKeepsComplete(m: Mux, id: Id)
    requires Good(m) && id in m.connections
    requires forall other | other in m.connections && other != id && m.connections[other].ready ::
               Indexed(m, other)
    ensures Complete(Apply(m, Close(id))) <==>
            forall other | other in m.connections && other != id && m.connections[other].ready ::
              m.connections[other].addr != m.connections[id].addr
  {
    var n := Apply(m, Close(id));
    forall other | other in m.connections && other != id && m.connections[other].ready
      ensures Indexed(n, other) <==> m.connections[other].addr != m.connections[id].addr
    {
      assert Indexed(m, other);
    }
  }

  /** Two connections are opened on one address pair, and the first is closed. */
  function SharedPair(i: Id, j: Id, a: AddressPair): seq<Op> {
    [Open(i, a, true), Open(j, a, true), Opened(i), Opened(j), Close(i)]
  }

  function ApplyAll(m: Mux, ops: seq<Op>): Mux
    decreases |ops|
  {
    if ops == [] then m else ApplyAll(Apply(m, ops[0]), ops[1..])
  }

  lemma ApplyFirst(m: Mux, op: Op, ops: seq<Op>)
    ensures ApplyAll(m, [op] + ops) == ApplyAll(Apply(m, op), ops)
  {
    assert ([op] + ops)[1..] == ops;
  }

  /** How it happens: from a new multiplexer, the second connection is left open, and out of reach. */
  lemma SharedPairLost(i: Id, j: Id, a: AddressPair)
    requires i != j && i != NON_ID && j != NON_ID
    ensures var n := ApplyAll(Mux(false, map[], map[], EMPTY), SharedPair(i, j, a));
      Good(n) && j in n.connections && n.connections[j].ready && n.addrToId == map[] && !Complete(n)
  {
    var m := Mux(false, map[], map[], EMPTY);
    var m1 := Apply(m, Open(i, a, true));
    var m2 := Apply(m1, Open(j, a, true));
    var m3 := Apply(m2, Opened(i));
    var m4 := Apply(m3, Opened(j));
    var m5 := Apply(m4, Close(i));
    assert m2.connections == map[i := Conn(a, false, false), j := Conn(a, false, false)];
    assert m4.connections == map[i := Conn(a, false, true), j := Conn(a, false, true)] && m4.addrToId == map[a := j];
    assert m5.connections == map[j := Conn(a, false, true)] && m5.addrToId == map[];
    assert !Indexed(m5, j);
    SharedPairRuns(m, i, j, a);
  }

  lemma SharedPairRuns(m: Mux, i: Id, j: Id, a: AddressPair)
    ensures ApplyAll(m, SharedPair(i, j, a)) ==
            Apply(Apply(Apply(Apply(Apply(m, Open(i, a, true)), Open(j, a, true)), Opened(i)), Opened(j)), Close(i))
  {
    var ops := SharedPair(i, j, a);
    assert ops == [ops[0]] + ([ops[1]] + ([ops[2]] + ([ops[3]] + [ops[4]])));
    var m1 := Apply(m, ops[0]);
    var m2 := Apply(m1, ops[1]);
    var m3 := Apply(m2, ops[2]);
    ApplyFirst(m, ops[0], [ops[1]] + ([ops[2]] + ([ops[3]] + [ops[4]])));
    ApplyFirst(m1, ops[1], [ops[2]] + ([ops[3]] + [ops[4]]));
    ApplyFirst(m2, ops[2], [ops[3]] + [ops[4]]);
    ApplyFirst(m3, ops[3], [ops[4]]);
    ApplyFirst(Apply(m3, ops[3]), ops[4], []);
    assert [ops[4]] + [] == [ops[4]];
  }

  /** As long as connections are opened on unused address pairs, every opened connection stays reachable. */
  lemma CompleteKept(m: Mux, op: Op)
    requires Good(m) && Complete(m) && DistinctAddresses(m) && !op.Reset?
    requires op.Open? && op.id !in m.connections ==>
               op.id != NON_ID && forall id | id in m.connections :: m.connections[id].addr != op.addr
    ensures Complete(Apply(m, op)) && DistinctAddresses(Apply(m, op))
  {
    var n := Apply(m, op);
    forall id | id in n.connections && n.connections[id].ready ensures Indexed(n, id) {
      assert m.connections[id].ready ==> Indexed(m, id);
    }
  }

  ghost predicate DistinctAddresses(m: Mux) {
    forall i, j | i in m.connections && j in m.connections && i != j ::
      m.connections[i].addr != m.connections[j].addr
  }

  // ---- Alignment ----

  function EncodeAll(packets: seq<Packet>): seq<byte>
    requires forall p | p in packets :: p.Valid()
  {
    if packets == [] then [] else Encode(packets[0]) + EncodeAll(packets[1..])
  }

  lemma EncodeAllEmpty(packets: seq<Packet>)
    requires forall p | p in packets :: p.Valid()
    ensures EncodeAll(packets) == [] ==> packets == []
  {
    assert packets != [] ==> |Encode(packets[0])| >= PREFIX_SIZE;
  }

  function Bytes(acts: seq<Act>): seq<byte> {
    if acts == [] then []
    else (if acts[0].Byte? then [acts[0].x] else []) + Bytes(acts[1..])
  }

  /** `e` hands the whole payload of `p` to the connection with its address pair. */
  predicate Matches(e: Event, p: Packet) {
    e.payload == p.payload && e.addr == Some(AddressPair(p.dst, p.src))
  }

  /** The events are some of the packets, each once, in order. */
  predicate Delivers(events: seq<Event>, packets: seq<Packet>) {
    if packets == [] then events == []
    else
      || Delivers(events, packets[1..])
      || (events != [] && Matches(events[0], packets[0]) && Delivers(events[1..], packets[1..]))
  }

  // A position in the stream: between packets, or `o` bytes into one.
  datatype Where = Between | Inside(p: Packet, o: nat)

  predicate Sound(w: Where) {
    w.Inside? ==>
      && w.p.Valid() && 0 < w.o <= PREFIX_SIZE + |w.p.payload|
      && (w.o == PREFIX_SIZE + |w.p.payload| ==> w.p.payload == [])
  }

  function Ahead(w: Where): seq<byte>
    requires Sound(w)
  {
    if w.Between? then [] else Encode(w.p)[w.o..]
  }

  function Current(w: Where): seq<Packet> {
    if w.Between? then [] else [w.p]
  }

  /** The receive state is the one for stream position `w`, whatever the tables were on the way. */
  predicate Positioned(m: Mux, w: Where)
    requires Sound(w)
  {
    match w
    case Between => m.recv == EMPTY
    case Inside(p, o) =>
      if o < PREFIX_SIZE then m.recv == EMPTY.(buffer := p.Prefix()[..o])
      else
        && m.recv.state != Idle
        && m.recv.left == PREFIX_SIZE + |p.payload| - o
        && (m.recv.state == Payload ==>
              && m.recv.buffer == p.payload[..o - PREFIX_SIZE]
              && m.recv.id in m.connections && m.connections[m.recv.id].addr == AddressPair(p.dst, p.src))
  }

  lemma OpPositioned(m: Mux, w: Where, op: Op)
    requires Good(m) && Sound(w) && Positioned(m, w) && !op.Reset? && (op.Open? ==> op.id != NON_ID)
    ensures Positioned(Apply(m, op), w)
  {
  }

  /** The first byte of a packet, when nothing is pending. */
  lemma FirstByte(m: Mux, p: Packet)
    requires Good(m) && Positioned(m, Between) && p.Valid()
    ensures ByteStep(m, Encode(p)[0]).events == []
    ensures Positioned(ByteStep(m, Encode(p)[0]).m, Inside(p, 1))
  {
    assert [] + [Encode(p)[0]] == p.Prefix()[..1];
  }

  lemma PrefixByte(m: Mux, p: Packet, o: nat)
    requires Good(m) && p.Valid() && 0 < o < PREFIX_SIZE && Positioned(m, Inside(p, o))
    ensures ByteStep(m, Encode(p)[o]).events == []
    ensures Positioned(ByteStep(m, Encode(p)[o]).m, Inside(p, o + 1))
  {
    if o + 1 == PREFIX_SIZE {
      LastPrefixByte(m, p);
    } else {
      PrefixGrows(p, o);
      BufferedByte(m, Encode(p)[o]);
    }
  }

  lemma PrefixGrows(p: Packet, o: nat)
    requires p.Valid() && o < PREFIX_SIZE
    ensures p.Prefix()[..o] + [Encode(p)[o]] == p.Prefix()[..o + 1]
  {
  }

  lemma BufferedByte(m: Mux, x: byte)
    requires m.recv.state == Idle && |m.recv.buffer| + 1 < PREFIX_SIZE
    ensures ByteStep(m, x) == Outcome(m.(recv := m.recv.(buffer := m.recv.buffer + [x])), [])
  {
  }

  lemma LastPrefixByte(m: Mux, p: Packet)
    requires Good(m) && p.Valid() && Positioned(m, Inside(p, PREFIX_SIZE - 1))
    ensures ByteStep(m, Encode(p)[PREFIX_SIZE - 1]).events == []
    ensures Positioned(ByteStep(m, Encode(p)[PREFIX_SIZE - 1]).m, Inside(p, PREFIX_SIZE))
  {
    assert p.Prefix()[..PREFIX_SIZE - 1] + [Encode(p)[PREFIX_SIZE - 1]] == p.Prefix();
    PrefixRoundTrip(PREFIX_SIZE - LENGTH_SIZE + |p.payload|, p.src, p.dst);
    IndexedIsLive(m, p.Prefix());
  }

  lemma BodyByte(m: Mux, p: Packet, o: nat)
    requires Good(m) && p.Valid() && PREFIX_SIZE <= o < PREFIX_SIZE + |p.payload| && Positioned(m, Inside(p, o))
    ensures var next := ByteStep(m, Encode(p)[o]);
            if o + 1 == PREFIX_SIZE + |p.payload| then
              Positioned(next.m, Between) && (next.events == [] || (|next.events| == 1 && Matches(next.events[0], p)))
            else
              Positioned(next.m, Inside(p, o + 1)) && next.events == []
  {
    var k := o - PREFIX_SIZE;
    assert Encode(p)[o] == p.payload[k];
    assert p.payload[..k] + [p.payload[k]] == p.payload[..k + 1];
    if o + 1 == PREFIX_SIZE + |p.payload| {
      assert p.payload[..k + 1] == p.payload;
    }
  }

  /** The first byte after a packet without payload finishes that packet first. */
  lemma PendingByte(m: Mux, p: Packet, q: Packet)
    requires Good(m) && p.Valid() && q.Valid() && p.payload == [] && Positioned(m, Inside(p, PREFIX_SIZE))
    ensures var next := ByteStep(m, Encode(q)[0]);
            && Positioned(next.m, Inside(q, 1))
            && (next.events == [] || (|next.events| == 1 && Matches(next.events[0], p)))
  {
    assert Good(Settle(m));
    FirstByte(Settle(m), q);
  }

  lemma DeliversMore(events: seq<Event>, p: Packet, packets: seq<Packet>, rest: seq<Event>)
    requires Delivers(rest, packets)
    requires events == [] || (|events| == 1 && Matches(events[0], p))
    ensures Delivers(events + rest, [p] + packets)
  {
    assert ([p] + packets)[1..] == packets;
    if events == [] {
      assert events + rest == rest;
    } else {
      assert (events + rest)[1..] == rest;
    }
  }

  /**
   * For a stream of well-formed packets cut and interleaved with table operations in any way, in
   * particular with the receiving connection closed in the middle of a packet: what is delivered is
   * a selection of the packets sent, whole, in order, each to a connection with its address pair,
   * and at the end of the stream the receiver is at a packet boundary.
   */
  lemma {:induction false} Aligned(m: Mux, w: Where, packets: seq<Packet>, acts: seq<Act>)
    requires Good(m) && Sound(w) && Positioned(m, w)
    requires forall p | p in packets :: p.Valid()
    requires forall a | a in acts :: Legal(a) && !(a.Table? && a.op.Reset?)
    requires Bytes(acts) == Ahead(w) + EncodeAll(packets)
    ensures Delivers(Play(m, acts).events, Current(w) + packets)
    ensures var n := Play(m, acts).m; n.recv == EMPTY || AtEnd(n)
    decreases |acts|
  {
    if acts == [] {
      EncodeAllEmpty(packets);
      assert Current(w) + packets == Current(w);
    } else if acts[0].Table? {
      assert Legal(acts[0]) && acts[0] in acts;
      OpPositioned(m, w, acts[0].op);
      ApplyGood(m, acts[0].op);
      Aligned(Apply(m, acts[0].op), w, packets, acts[1..]);
      assert [] + Play(Apply(m, acts[0].op), acts[1..]).events == Play(Apply(m, acts[0].op), acts[1..]).events;
    } else {
      ByteGood(m, acts[0].x);
      if w.Inside? && w.o < PREFIX_SIZE + |w.p.payload| {
        AlignedInside(m, w, packets, acts);
      } else {
        AlignedAtBoundary(m, w, packets, acts);
      }
    }
  }

  lemma HeadAndTail<T>(a: seq<T>, b: seq<T>)
    requires a != []
    ensures (a + b)[0] == a[0] && (a + b)[1..] == a[1..] + b
  {
  }

  lemma {:induction false} AlignedInside(m: Mux, w: Where, packets: seq<Packet>, acts: seq<Act>)
    requires Good(m) && Sound(w) && Positioned(m, w)
    requires forall p | p in packets :: p.Valid()
    requires acts != [] && acts[0].Byte? && Good(ByteStep(m, acts[0].x).m)
    requires forall a | a in acts :: Legal(a) && !(a.Table? && a.op.Reset?)
    requires Bytes(acts) == Ahead(w) + EncodeAll(packets)
    requires w.Inside? && w.o < PREFIX_SIZE + |w.p.payload|
    ensures Delivers(Play(m, acts).events, Current(w) + packets)
    ensures var n := Play(m, acts).m; n.recv == EMPTY || AtEnd(n)
    decreases |acts|, 0
  {
    var p, o := w.p, w.o;
    var next := ByteStep(m, acts[0].x);
    var later := Play(next.m, acts[1..]);
    NextByteInside(p, o, packets, acts);
    if o < PREFIX_SIZE {
      PrefixByte(m, p, o);
    } else {
      BodyByte(m, p, o);
    }
    if PREFIX_SIZE <= o && o + 1 == PREFIX_SIZE + |p.payload| {
      Aligned(next.m, Between, packets, acts[1..]);
      assert Current(Between) + packets == packets;
      DeliversMore(next.events, p, packets, later.events);
    } else {
      Aligned(next.m, Inside(p, o + 1), packets, acts[1..]);
      assert next.events + later.events == later.events;
    }
  }

  /** The next byte is the next one of the packet, and the rest of it follows. */
  lemma NextByteInside(p: Packet, o: nat, packets: seq<Packet>, acts: seq<Act>)
    requires p.Valid() && o < PREFIX_SIZE + |p.payload| && forall q | q in packets :: q.Valid()
    requires acts != [] && acts[0].Byte? && Bytes(acts) == Encode(p)[o..] + EncodeAll(packets)
    ensures acts[0].x == Encode(p)[o] && Bytes(acts[1..]) == Encode(p)[o + 1..] + EncodeAll(packets)
    ensures o + 1 == PREFIX_SIZE + |p.payload| ==> Bytes(acts[1..]) == [] + EncodeAll(packets)
  {
    HeadAndTail([acts[0].x], Bytes(acts[1..]));
    assert Bytes(acts) == [acts[0].x] + Bytes(acts[1..]);
    HeadAndTail(Encode(p)[o..], EncodeAll(packets));
    assert Encode(p)[o..][0] == Encode(p)[o] && Encode(p)[o..][1..] == Encode(p)[o + 1..];
  }

  lemma {:induction false} AlignedAtBoundary(m: Mux, w: Where, packets: seq<Packet>, acts: seq<Act>)
    requires Good(m) && Sound(w) && Positioned(m, w)
    requires forall p | p in packets :: p.Valid()
    requires acts != [] && acts[0].Byte? && Good(ByteStep(m, acts[0].x).m)
    requires forall a | a in acts :: Legal(a) && !(a.Table? && a.op.Reset?)
    requires Bytes(acts) == Ahead(w) + EncodeAll(packets)
    requires w.Between? || w.o == PREFIX_SIZE + |w.p.payload|
    ensures Delivers(Play(m, acts).events, Current(w) + packets)
    ensures var n := Play(m, acts).m; n.recv == EMPTY || AtEnd(n)
    decreases |acts|, 0
  {
    var x := acts[0].x;
    var next := ByteStep(m, x);
    var later := Play(next.m, acts[1..]);
    HeadAndTail([x], Bytes(acts[1..]));
    assert Bytes(acts)[0] == x && Bytes(acts)[1..] == Bytes(acts[1..]);
    assert Ahead(w) + EncodeAll(packets) == EncodeAll(packets);
    var q, rest := packets[0], packets[1..];
    HeadAndTail(Encode(q), EncodeAll(rest));
    assert [q] + rest == packets;
    if w.Between? {
      FirstByte(m, q);
      Aligned(next.m, Inside(q, 1), rest, acts[1..]);
      assert next.events + later.events == later.events;
      assert Current(w) + packets == packets;
    } else {
      PendingByte(m, w.p, q);
      Aligned(next.m, Inside(q, 1), rest, acts[1..]);
      DeliversMore(next.events, w.p, packets, later.events);
    }
  }

  // ---- Exact delivery with fixed tables ----

  /** Whom a packet is for: the indexed connection, if it reads. */
  function Expected(m: Mux, packets: seq<Packet>): seq<Event> {
    if packets == [] then []
    else
      var key := AddressPair(packets[0].dst, packets[0].src);
      (if key in m.addrToId && !Dropped(m, m.addrToId[key])
       then [Read(m.addrToId[key], packets[0].payload, Some(key))] else [])
      + Expected(m, packets[1..])
  }

  lemma OnePacket(m: Mux, p: Packet)
    requires Good(m) && m.recv == EMPTY && p.Valid()
    ensures var n := ByteRun(m, Encode(p));
            && (n.m.recv == EMPTY || AtEnd(n.m)) && n.m == m.(recv := n.m.recv)
            && n.events + Pending(n.m) == Expected(m, [p])
  {
    if p.payload == [] {
      assert Encode(p) == p.Prefix();
      EmptyPacket(m, p);
    } else {
      WholePrefix(m, p);
      ByteRunConcat(m, p.Prefix(), p.payload);
      WholeBody(m, p);
    }
  }

  lemma EmptyPacket(m: Mux, p: Packet)
    requires Good(m) && m.recv == EMPTY && p.Valid() && p.payload == []
    ensures var n := ByteRun(m, p.Prefix());
      && (n.m.recv == EMPTY || AtEnd(n.m)) && n.m == m.(recv := n.m.recv) && n.events == []
      && Pending(n.m) == Expected(m, [p])
  {
    WholePrefix(m, p);
  }

  lemma WholeBody(m: Mux, p: Packet)
    requires Good(m) && m.recv == EMPTY && p.Valid() && p.payload != []
    ensures var n := ByteRun(Begin(m, p.Prefix()), p.payload);
      n.m == m && n.events == Expected(m, [p])
  {
    WholePrefix(m, p);
    BodyRun(Begin(m, p.Prefix()), p.payload);
    assert [] + p.payload == p.payload;
  }

  lemma WholePrefix(m: Mux, p: Packet)
    requires Good(m) && m.recv == EMPTY && p.Valid()
    ensures ByteRun(m, p.Prefix()) == Outcome(Begin(m, p.Prefix()), [])
    ensures PrefixLength(p.Prefix()) == PREFIX_SIZE - LENGTH_SIZE + |p.payload|
    ensures PrefixSource(p.Prefix()) == p.src && PrefixDestination(p.Prefix()) == p.dst
  {
    var prefix := p.Prefix();
    assert [] + prefix == prefix;
    PrefixRun(m, prefix);
    PrefixRoundTrip(PREFIX_SIZE - LENGTH_SIZE + |p.payload|, p.src, p.dst);
  }

  lemma NextPacket(m: Mux, p: Packet)
    requires Good(m) && (m.recv == EMPTY || AtEnd(m)) && p.Valid()
    ensures var n := ByteRun(m, Encode(p));
            && (n.m.recv == EMPTY || AtEnd(n.m)) && n.m == m.(recv := n.m.recv) && Good(n.m)
            && n.events + Pending(n.m) == Pending(m) + Expected(m, [p])
  {
    OnePacket(Settle(m), p);
    ExpectedRecv(m, Settle(m), [p]);
    if AtEnd(m) {
      SettleRun(m, Encode(p));
    }
    RunGood(m, Encode(p));
  }

  lemma {:induction false} RunGood(m: Mux, data: seq<byte>)
    requires Good(m)
    ensures Good(ByteRun(m, data).m)
    decreases |data|
  {
    if data != [] {
      ByteGood(m, data[0]);
      RunGood(ByteStep(m, data[0]).m, data[1..]);
    }
  }

  lemma Glue<T>(e1: seq<T>, p1: seq<T>, p0: seq<T>, x1: seq<T>, e2: seq<T>, p2: seq<T>, x2: seq<T>)
    requires e1 + p1 == p0 + x1 && e2 + p2 == p1 + x2
    ensures e1 + e2 + p2 == p0 + (x1 + x2)
  {
    calc {
      e1 + e2 + p2;
      e1 + (e2 + p2);
      (e1 + p1) + x2;
      p0 + (x1 + x2);
    }
  }

  /**
   * With the tables fixed, a stream of well-formed packets is delivered exactly: one callback for
   * every packet whose address pair is indexed to a reading connection, in order, and none else.
   * Only the callback of a final packet without payload may still be pending.
   */
  lemma {:induction false} ExactDelivery(m: Mux, packets: seq<Packet>)
    requires Good(m) && (m.recv == EMPTY || AtEnd(m))
    requires forall p | p in packets :: p.Valid()
    ensures var n := ByteRun(m, EncodeAll(packets));
            && (n.m.recv == EMPTY || AtEnd(n.m)) && n.m == m.(recv := n.m.recv)
            && n.events + Pending(n.m) == Pending(m) + Expected(m, packets)
    decreases |packets|
  {
    if packets == [] {
      assert Pending(m) + [] == [] + Pending(m);
    } else {
      var p, rest := packets[0], packets[1..];
      NextPacket(m, p);
      var one := ByteRun(m, Encode(p));
      ExactDelivery(one.m, rest);
      var two := ByteRun(one.m, EncodeAll(rest));
      ByteRunConcat(m, Encode(p), EncodeAll(rest));
      ExpectedRecv(m, one.m, rest);
      ExpectedHead(m, packets);
      Glue(one.events, Pending(one.m), Pending(m), Expected(m, [p]), two.events, Pending(two.m), Expected(m, rest));
    }
  }

  lemma ExpectedHead(m: Mux, packets: seq<Packet>)
    requires packets != []
    ensures Expected(m, packets) == Expected(m, [packets[0]]) + Expected(m, packets[1..])
  {
    assert [packets[0]][1..] == [];
  }

  lemma {:induction false} ExpectedRecv(m: Mux, n: Mux, packets: seq<Packet>)
    requires n == m.(recv := n.recv)
    ensures Expected(n, packets) == Expected(m, packets)
  {
    if packets != [] {
      ExpectedRecv(m, n, packets[1..]);
    }
  }

  // ---- The multiplexer object ----

  class HttpUdpMultiplexer {
    var established: bool
    var connections: map<Id, Conn>
    var addrToId: map<AddressPair, Id>
    var recv: Recv

    ghost function View(): Mux
      reads this
    {
      Mux(established, connections, addrToId, recv)
    }

    constructor ()
      ensures View() == Mux(false, map[], map[], EMPTY) && Good(View())
    {
      established, connections, addrToId, recv := false, map[], map[], EMPTY;
    }

    /** `granted` is the answer to the request for a stream. */
    method OpenConnection(id: Id, addr: AddressPair, granted: bool) returns (ok: bool)
      modifies this`established, this`connections
      ensures View() == Apply(old(View()), Open(id, addr, granted))
      ensures ok == (id !in old(connections) && (old(established) || granted)) && (ok ==> id in connections && established)
    {
      if id in connections {
        return false;
      }
      if !established {
        if !granted {
          return false;
        }
        established := true;
      }
      connections := connections[id := Conn(addr, false, false)];
      return true;
    }

    method CompleteUdpConnection(id: Id)
      modifies this`addrToId, this`connections
      ensures View() == Apply(old(View()), Opened(id))
    {
      if established && id in connections {
        connections := connections[id := connections[id].(ready := true)];
        addrToId := addrToId[connections[id].addr := id];
      }
    }

    method CleanConnectionData(id: Id) returns (existed: bool)
      modifies this`recv, this`addrToId, this`connections
      ensures View() == Apply(old(View()), Close(id)) && existed == (id in old(connections))
    {
      existed := id in connections;
      if existed {
        if recv.id == id {
          recv := recv.(state := Dropping);
        }
        addrToId := addrToId - {connections[id].addr};
        connections := connections - {id};
      }
    }

    /** `close`: every connection is told and cleaned, then the machine is reset. */
    method CloseAll() returns (closed: seq<Id>)
      modifies this
      ensures View() == Mux(false, map[], map[], EMPTY)
      ensures NoDuplicates(closed) && forall id :: id in closed <==> id in old(connections)
    {
      closed := [];
      while connections != map[]
        invariant NoDuplicates(closed)
        invariant forall id :: id in closed <==> id in old(connections) && id !in connections
        invariant connections.Keys <= old(connections).Keys
        decreases |connections|
      {
        var id :| id in connections;
        var existed := CleanConnectionData(id);
        closed := closed + [id];
      }
      established, addrToId, recv := false, map[], EMPTY;
    }

    method ProcessReadEvent(chunk: seq<byte>) returns (events: seq<Event>)
      requires Good(View())
      modifies this`recv
      ensures Outcome(View(), events) == ByteRun(old(View()), chunk) && Good(View())
    {
      RunGood(View(), chunk);
      recv, events := ReadLoop(connections, addrToId, recv, chunk, View());
    }
  }

  /** The body of the loop in the prefix state: `next` is the receive record after `toRead` bytes. */
  method ReadPrefixPart(connections: map<Id, Conn>, addrToId: map<AddressPair, Id>, recv: Recv, data: seq<byte>, ghost m: Mux)
    returns (next: Recv, toRead: nat)
    requires m == Mux(m.established, connections, addrToId, recv) && Good(m) && recv.state == Idle && data != []
    ensures 0 < toRead <= |data| && Good(m.(recv := next))
    ensures ByteRun(m, data) == ByteRun(m.(recv := next), data[toRead..])
  {
    toRead := Min(PREFIX_SIZE - |recv.buffer|, |data|);
    var buffer := recv.buffer + data[..toRead];
    PrefixPart(m, data, toRead);
    if |buffer| < PREFIX_SIZE {
      next := recv.(buffer := buffer);
    } else {
      var info := ReadPrefix(addrToId, buffer);
      var drop := info.id == NON_ID || info.id !in connections || !connections[info.id].readEnabled;
      next := if drop then Recv(Dropping, recv.id, info.payloadLength, [])
              else Recv(Payload, info.id, info.payloadLength, []);
    }
  }

  /** The body of the loop in the payload and dropping states. */
  method ReadBodyPart(connections: map<Id, Conn>, addrToId: map<AddressPair, Id>, recv: Recv, data: seq<byte>, ghost m: Mux)
    returns (next: Recv, toRead: nat, raised: seq<Event>)
    requires m == Mux(m.established, connections, addrToId, recv) && Good(m) && recv.state != Idle && data != []
    ensures toRead <= |data| && Good(m.(recv := next)) && (toRead == 0 ==> next.state == Idle)
    ensures ByteRun(m, data).m == ByteRun(m.(recv := next), data[toRead..]).m
    ensures ByteRun(m, data).events == raised + ByteRun(m.(recv := next), data[toRead..]).events
  {
    toRead := Min(recv.left, |data|);
    BodyPart(m, data, toRead);
    next := recv.(left := recv.left - toRead,
                  buffer := if recv.state == Payload then recv.buffer + data[..toRead] else recv.buffer);
    assert m.(recv := next) == BodyAfter(m, data[..toRead]);
    raised := [];
    if next.left == 0 {
      if next.state == Payload {
        raised := [Read(next.id, next.buffer, Some(connections[next.id].addr))];
      }
      next := EMPTY;
    }
  }

  /**
   * The loop of `process_read_event`: it copies as much as the current part of a packet allows. Its
   * variant is lexicographic, because finishing a packet without payload consumes no data.
   */
  method ReadLoop(connections: map<Id, Conn>, addrToId: map<AddressPair, Id>, start: Recv, chunk: seq<byte>, ghost m: Mux)
    returns (recv: Recv, events: seq<Event>)
    requires m == Mux(m.established, connections, addrToId, start) && Good(m)
    ensures ByteRun(m, chunk) == Outcome(m.(recv := recv), events)
  {
    var data := chunk;
    events, recv := [], start;
    while data != []
      invariant Good(m.(recv := recv))
      invariant ByteRun(m, chunk).m == ByteRun(m.(recv := recv), data).m
      invariant ByteRun(m, chunk).events == events + ByteRun(m.(recv := recv), data).events
      decreases |data|, recv.state != Idle
    {
      if recv.state == Idle {
        var next, toRead := ReadPrefixPart(connections, addrToId, recv, data, m.(recv := recv));
        recv, data := next, data[toRead..];
      } else {
        var next, toRead, raised := ReadBodyPart(connections, addrToId, recv, data, m.(recv := recv));
        Assoc(events, raised, ByteRun(m.(recv := next), data[toRead..]).events);
        recv, data, events := next, data[toRead..], events + raised;
      }
    }
  }

  lemma PrefixPart(now: Mux, data: seq<byte>, n: nat)
    requires Good(now) && now.recv.state == Idle && n == Min(PREFIX_SIZE - |now.recv.buffer|, |data|)
    ensures var buffer := now.recv.buffer + data[..n];
            var after := if |buffer| == PREFIX_SIZE then Begin(now, buffer) else now.(recv := now.recv.(buffer := buffer));
            Good(after) && ByteRun(now, data) == ByteRun(after, data[n..])
  {
    var head, tail := data[..n], data[n..];
    assert head + tail == data;
    PrefixRun(now, head);
    RunGood(now, head);
    ByteRunConcat(now, head, tail);
    assert forall e: seq<Event> :: [] + e == e;
  }

  lemma BodyPart(now: Mux, data: seq<byte>, n: nat)
    requires Good(now) && now.recv.state != Idle && data != [] && n == Min(now.recv.left, |data|)
    ensures var after := BodyAfter(now, data[..n]);
            && Good(Settle(after))
            && ByteRun(now, data).m == ByteRun(Settle(after), data[n..]).m
            && ByteRun(now, data).events == Pending(after) + ByteRun(Settle(after), data[n..]).events
  {
    var head, tail := data[..n], data[n..];
    assert head + tail == data;
    if n > 0 {
      BodyRun(now, head);
      RunGood(now, head);
      ByteRunConcat(now, head, tail);
    } else {
      assert now.recv.buffer + head == now.recv.buffer && tail == data;
      assert BodyAfter(now, head) == now;
      SettleRun(now, data);
    }
  }
}
