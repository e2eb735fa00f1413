/**
 * The outgoing bytes of a TCP connection that was first routed to the fake upstream: buffered while
 * its destination is being found out, handed over in a migration, then sent on the real upstream.
 *
 * Early acknowledgement is off and the listener raises reads only while they are on. An upstream's
 * answers to `send` are a parameter: negative is an error, otherwise the number of bytes it took.
 */
module TunnelBytes {
  import opened Prelude

  const MAX_LOOKUP_ATTEMPTS: nat := 3

  // ---- Choosing an upstream ----

  datatype Upstream = Fake | Endpoint | Bypass | DnsHandler

  datatype Action = Default | ForceBypass | ForceRedirect | Reject

  datatype Mode = General | Selective

  // What of a connection, besides its flags, decides where it is routed.
  datatype Route = Route(fromDnsHandler: bool, plainDns: bool, scannablePort: bool, mode: Mode, earlyAck: bool)

  /** `select_upstream` for a connection. */
  function SelectUpstream(action: Action, route: Route, lookingUpDomain: bool, suspectExclusion: bool): Option<Upstream> {
    match action
    case ForceBypass => Some(Bypass)
    case ForceRedirect => Some(Endpoint)
    case Reject => None
    case Default =>
      if route.fromDnsHandler then Some(Endpoint)
      else if route.plainDns then Some(DnsHandler)
      else if lookingUpDomain && (suspectExclusion || route.earlyAck) && route.scannablePort then Some(Fake)
      else if route.mode == General then Some(Endpoint) else Some(Bypass)
  }

  /** A finished lookup leads away from the fake upstream, whatever action it decided on. */
  lemma LookupLeavesFake(action: Action, route: Route, suspectExclusion: bool)
    ensures SelectUpstream(action, route, false, suspectExclusion) != Some(Fake)
  {
  }

  /**
   * A connection that gives up on the lookup, no longer a suspect, is routed to the fake upstream
   * again if and only if early acknowledgement put it there.
   */
  lemma GivingUpLeavesFake(route: Route, lookingUpDomain: bool, suspectExclusion: bool)
    requires SelectUpstream(Default, route, lookingUpDomain, suspectExclusion) == Some(Fake)
    ensures SelectUpstream(Default, route, lookingUpDomain, false) == Some(Fake) <==> route.earlyAck
  {
  }

  // ---- Sending packets ----

  // What the domain lookup makes of a TCP read; `Shutdown` carries the action it decided on.
  datatype Lookup = Done | Pass | WantMore | Shutdown(action: Action)

  datatype State = Connected | ConnectedMigrating

  // The connection being opened on another upstream.
  datatype Twin = Twin(upstream: Upstream, buffered: seq<seq<byte>>, lookingUpDomain: bool)

  function Taken(answer: int, size: nat): (r: int)
    ensures r == -1 || 0 <= r <= size
  {
    if answer < 0 then -1 else Min(answer, size)
  }

  // What became of a list of packets: the bytes an upstream took, the packets left, and why it stopped.
  datatype Verdict = All | Partly | Blocked | Failed
  datatype Outcome = Outcome(bytes: seq<byte>, rest: seq<seq<byte>>, verdict: Verdict, left: seq<int>)

  function NextAnswer(answers: seq<int>): int { if answers == [] then 0 else answers[0] }

  function Later(answers: seq<int>): seq<int> { if answers == [] then [] else answers[1..] }

  function SendAll(packets: seq<seq<byte>>, answers: seq<int>): Outcome {
    if packets == [] then Outcome([], [], All, answers)
    else
      var packet, r := packets[0], Taken(NextAnswer(answers), |packets[0]|);
      if r == |packet| then
        var o := SendAll(packets[1..], Later(answers));
        o.(bytes := packet + o.bytes)
      else if r < 0 then Outcome([], packets, Failed, Later(answers))
      else if r == 0 then Outcome([], packets, Blocked, Later(answers))
      else Outcome(packet[..r], [packet[r..]] + packets[1..], Partly, Later(answers))
  }

  /** Nothing is lost, doubled or reordered, and sending stops early only when the upstream stops. */
  lemma {:induction false} SendAllConserves(packets: seq<seq<byte>>, answers: seq<int>)
    ensures var o := SendAll(packets, answers);
      o.bytes + Flatten(o.rest) == Flatten(packets) && (o.rest == [] <==> o.verdict == All)
  {
    if packets != [] {
      var packet, r := packets[0], Taken(NextAnswer(answers), |packets[0]|);
      if r == |packet| {
        SendAllConserves(packets[1..], Later(answers));
        var o := SendAll(packets[1..], Later(answers));
        Assoc(packet, o.bytes, Flatten(o.rest));
      } else if r > 0 {
        CutFirst(packets, r);
      }
    }
  }

  /** What a read in the connected state comes to. */
  function Forwarded(packets: seq<seq<byte>>, answers: seq<int>, data: seq<byte>): int {
    var o := SendAll(packets, answers);
    if o.verdict == Failed then -1 else if o.verdict != All then 0 else Taken(NextAnswer(o.left), |data|)
  }

  class Connection {
    const route: Route
    var upstream: Upstream
    var state: State
    var readOn: bool
    var lookingUpDomain: bool
    var suspectExclusion: bool
    var fakeConnection: bool
    var firstPacket: bool
    var lookupAttempts: nat
    var buffered: seq<seq<byte>>
    var twin: Option<Twin>
    var sendTask: bool
    var closing: bool                  // a close has been asked for
    var sentOnReal: seq<byte>
    var sentOnFake: nat                // calls of the fake upstream's `send`, which is not meant to be called
    ghost var accepted: seq<byte>      // what the listener was told has been taken
    ghost var twinLost: bool           // the twin failed to connect, with the packets it had been given

    ghost function Waiting(): seq<byte>
      reads this
    {
      Flatten(if twin.Some? then twin.value.buffered else buffered)
    }

    ghost predicate Conserved()
      reads this
    {
      sentOnReal <= accepted && (!twinLost ==> accepted == sentOnReal + Waiting())
    }

    ghost predicate Shape()
      reads this
    {
      && Conserved() && sentOnFake == 0 && !route.earlyAck
      && (upstream == Fake ==> firstPacket && !sendTask && sentOnReal == [])
      && (upstream != Fake ==> !firstPacket && !fakeConnection && state == Connected && twin.None? && !twinLost)
      && (state == ConnectedMigrating ==> !readOn && buffered == [])
      && (twin.Some? ==> state == ConnectedMigrating && twin.value.upstream != Fake && !twinLost)
      && (twinLost ==> state == ConnectedMigrating)
      && (closing ==> !readOn)
    }

    /** What keeps reads on the fake upstream from being forwarded is the flag, not the state. */
    ghost predicate Valid()
      reads this
    {
      Shape() && (upstream == Fake && readOn ==> fakeConnection)
    }

    /** A connection that `complete_connect_request` routed to the fake upstream, once it is accepted. */
    constructor (route: Route, lookingUpDomain: bool, suspectExclusion: bool)
      requires !route.earlyAck && SelectUpstream(Default, route, lookingUpDomain, suspectExclusion) == Some(Fake)
      ensures Valid() && accepted == [] && upstream == Fake && this.route == route && !twinLost
      ensures readOn && lookupAttempts == 0 && this.lookingUpDomain == lookingUpDomain
    {
      this.route := route;
      this.lookingUpDomain, this.suspectExclusion := lookingUpDomain, suspectExclusion;
      upstream := SelectUpstream(Default, route, lookingUpDomain, suspectExclusion).value;
      fakeConnection := SelectUpstream(Default, route, lookingUpDomain, suspectExclusion).value == Fake;
      state, readOn, firstPacket, lookupAttempts, buffered := Connected, true, true, 0, [];
      twin, sendTask, closing, sentOnReal, sentOnFake, accepted, twinLost := None, false, false, [], 0, [], false;
    }

    /** `send` of whichever upstream the connection is on. */
    method UpstreamSend(data: seq<byte>, answer: int) returns (r: int)
      modifies this`sentOnReal, this`sentOnFake
      ensures sentOnFake == old(sentOnFake) + (if upstream == Fake then 1 else 0)
      ensures r == if upstream == Fake then -1 else Taken(answer, |data|)
      ensures sentOnReal == old(sentOnReal) + (if r > 0 then data[..r] else [])
    {
      if upstream == Fake {
        sentOnFake := sentOnFake + 1;
        r := -1;
      } else {
        r := Taken(answer, |data|);
        if r > 0 {
          sentOnReal := sentOnReal + data[..r];
        }
      }
    }

    /** `send_buffered_data`: sends from the front, keeps the rest of a packet that was taken in part. */
    method SendBufferedData(answers: seq<int>, canSend: bool) returns (ok: bool, left: seq<int>)
      requires Valid() && upstream != Fake
      modifies this`buffered, this`sentOnReal, this`sentOnFake, this`readOn, this`sendTask
      ensures Valid() && !sendTask
      ensures var o := SendAll(old(buffered), answers);
        && buffered == o.rest && sentOnReal == old(sentOnReal) + o.bytes
        && ok == (o.verdict != Failed) && left == o.left
        && readOn == if ok && !closing then canSend && o.verdict != Blocked else old(readOn)
    {
      sendTask := false;
      SendAllConserves(buffered, answers);
      Assoc(sentOnReal, SendAll(buffered, answers).bytes, Flatten(SendAll(buffered, answers).rest));
      var verdict;
      verdict, left := SendLoop(answers);
      if verdict == Failed {
        return false, left;
      }
      TurnRead(canSend && verdict != Blocked);
      return true, left;
    }

    /** `turn_read` of the listener, which raises no more reads on a connection it is closing. */
    method TurnRead(on: bool)
      modifies this`readOn
      ensures readOn == if closing then old(readOn) else on
    {
      if !closing {
        readOn := on;
      }
    }

    method SendLoop(answers: seq<int>) returns (verdict: Verdict, left: seq<int>)
      requires upstream != Fake
      modifies this`buffered, this`sentOnReal, this`sentOnFake
      ensures var o := SendAll(old(buffered), answers);
        buffered == o.rest && sentOnReal == old(sentOnReal) + o.bytes && verdict == o.verdict && left == o.left
      ensures sentOnFake == old(sentOnFake)
    {
      left, verdict := answers, All;
      ghost var o := SendAll(buffered, answers);
      ghost var done := [];
      while buffered != []
        modifies this`buffered, this`sentOnReal, this`sentOnFake
        invariant sentOnReal == old(sentOnReal) + done && sentOnFake == old(sentOnFake)
        invariant var p := SendAll(buffered, left);
          o.bytes == done + p.bytes && o.rest == p.rest && o.verdict == p.verdict && o.left == p.left
        decreases |buffered|
      {
        var packet := buffered[0];
        var r := UpstreamSend(packet, NextAnswer(left));
        left := Later(left);
        if r == |packet| {
          assert (if r > 0 then packet[..r] else []) == packet;
          Assoc(old(sentOnReal), done, packet);
          Assoc(done, packet, SendAll(buffered[1..], left).bytes);
          done := done + packet;
          buffered := buffered[1..];
          continue;
        }
        if r < 0 {
          return Failed, left;
        }
        if r == 0 {
          return Blocked, left;
        }
        Assoc(old(sentOnReal), done, packet[..r]);
        buffered := [packet[r..]] + buffered[1..];
        return Partly, left;
      }
    }

    /**
     * `initiate_connection_migration` for TCP: on success nothing of the packet is taken, the buffered
     * packets go over to the twin and reads are off.
     */
    method InitiateMigration(target: Option<Upstream>, opens: bool) returns (result: int)
      requires Shape() && upstream == Fake && state == Connected && target != Some(Fake)
      modifies this`readOn, this`buffered, this`twin, this`state
      ensures Shape() && result == (if target.Some? && opens then 0 else -1)
      ensures if result == 0 then
                state == ConnectedMigrating && twin == Some(Twin(target.value, old(buffered), lookingUpDomain))
                && buffered == [] && !readOn
              else state == Connected && twin == old(twin) && buffered == old(buffered) && readOn == old(readOn)
    {
      if target.None? || !opens {
        return -1;
      }
      twin := Some(Twin(target.value, buffered, lookingUpDomain));
      buffered := [];
      readOn := false;
      state := ConnectedMigrating;
      return 0;
    }

    /** Reads are off and the connection is going to be closed. */
    method TurnOffAndClose()
      requires Shape()
      modifies this`readOn, this`closing
      ensures Valid() && !readOn && closing
    {
      readOn, closing := false, true;
    }

    /** A packet the lookup wants to see more after. */
    method Keep(data: seq<byte>)
      requires Valid() && state == Connected
      modifies this`buffered, this`accepted
      ensures Valid() && buffered == old(buffered) + [data] && accepted == old(accepted) + data
    {
      FlattenSnoc(buffered, data);
      Assoc(sentOnReal, Flatten(buffered), data);
      buffered, accepted := buffered + [data], accepted + data;
    }

    ghost predicate Keeps(lookup: Lookup)
      reads this
    {
      lookingUpDomain && lookup == WantMore && lookupAttempts < MAX_LOOKUP_ATTEMPTS
    }

    /** `CLIENT_EVENT_READ` on a TCP connection; `result` is what the listener is told was taken. */
    method OnRead(data: seq<byte>, lookup: Lookup, opens: bool, answers: seq<int>, canSend: bool) returns (result: int)
      requires Valid() && readOn
      modifies this
      ensures Valid() && -1 <= result <= |data| && twinLost == old(twinLost)
      ensures accepted == old(accepted) + (if result > 0 then data[..result] else [])
      ensures old(Keeps(lookup)) ==>
                result == |data| && buffered == old(buffered) + [data] && upstream == old(upstream) && readOn
      ensures !old(Keeps(lookup)) && old(upstream) == Fake ==>
                && (if result == 0 then twin.Some? else result < 0 && closing)
                && (result == 0 <==> opens && !(old(lookingUpDomain) && lookup == Shutdown(Reject)))
      ensures !old(Keeps(lookup)) && old(upstream) != Fake ==>
                if old(lookingUpDomain) && lookup.Shutdown? then result == 0 && !readOn && closing == old(closing)
                else result == Forwarded(old(buffered), answers, data) && upstream == old(upstream)
    {
      if lookingUpDomain {
        match lookup {
          case Done => lookingUpDomain := false;
          case Pass =>
          case WantMore =>
            lookupAttempts := lookupAttempts + 1;
            if lookupAttempts <= MAX_LOOKUP_ATTEMPTS {
              Keep(data);
              assert data[..|data|] == data;
              return |data|;
            }
          case Shutdown(action) =>
            lookingUpDomain := false;
            if !firstPacket {
              TurnRead(false);               // and the upstream's side is closed, but not yet the client's
              return 0;
            }
            LookupLeavesFake(action, route, suspectExclusion);
            result := Migrate(action, opens);
            return;
        }
      }
      result := AfterLookup(data, opens, answers, canSend);
    }

    /** The rest of the handler, for a read that the lookup neither kept nor used to migrate. */
    method AfterLookup(data: seq<byte>, opens: bool, answers: seq<int>, canSend: bool) returns (result: int)
      requires Valid() && readOn
      modifies this
      ensures Valid() && -1 <= result <= |data| && twinLost == old(twinLost)
      ensures accepted == old(accepted) + (if result > 0 then data[..result] else [])
      ensures if old(upstream) == Fake then (if result == 0 then twin.Some? else result < 0 && closing) && (result == 0 <==> opens)
              else result == Forwarded(old(buffered), answers, data) && upstream == old(upstream)
    {
      if fakeConnection {
        fakeConnection, suspectExclusion := false, false;
        result := Migrate(Default, opens);
        return;
      }
      firstPacket, fakeConnection := false, false;
      if state != Connected {
        return -1;
      }
      result := ForwardRead(data, answers, canSend);
    }

    /** Both places where a migration starts: to the upstream that is selected now, or else to a close. */
    method Migrate(action: Action, opens: bool) returns (result: int)
      requires Shape() && upstream == Fake && state == Connected
      requires SelectUpstream(action, route, lookingUpDomain, suspectExclusion) != Some(Fake)
      modifies this`readOn, this`buffered, this`twin, this`state, this`closing, this`fakeConnection
      ensures Valid() && -1 <= result <= 0 && (result == 0 ==> twin.Some?) && (result < 0 ==> closing)
      ensures result == 0 <==> opens && SelectUpstream(action, route, lookingUpDomain, suspectExclusion).Some?
    {
      result := InitiateMigration(SelectUpstream(action, route, lookingUpDomain, suspectExclusion), opens);
      if result < 0 {
        TurnOffAndClose();
      } else {
        fakeConnection := false;
      }
    }

    /** A read in the connected state: what is buffered goes first. */
    method ForwardRead(data: seq<byte>, answers: seq<int>, canSend: bool) returns (result: int)
      requires Valid() && upstream != Fake && !closing
      modifies this`buffered, this`sentOnReal, this`sentOnFake, this`readOn, this`sendTask, this`accepted
      ensures Valid() && -1 <= result <= |data|
      ensures accepted == old(accepted) + (if result > 0 then data[..result] else [])
      ensures result == Forwarded(old(buffered), answers, data)
    {
      var left := answers;
      SendAllConserves(buffered, answers);
      if buffered != [] {
        var ok;
        ok, left := SendBufferedData(answers, canSend);
        if !ok {
          return -1;
        }
        if buffered != [] {
          return 0;
        }
      }
      result := SendRest(data, NextAnswer(left), canSend);
    }

    /** The read itself, when nothing is buffered before it. */
    method SendRest(data: seq<byte>, answer: int, canSend: bool) returns (result: int)
      requires Valid() && upstream != Fake && buffered == [] && !closing
      modifies this`sentOnReal, this`sentOnFake, this`readOn, this`accepted
      ensures Valid() && result == Taken(answer, |data|)
      ensures accepted == old(accepted) + (if result > 0 then data[..result] else [])
    {
      result := UpstreamSend(data, answer);
      if result > 0 || result == |data| {
        TurnRead(canSend);
        accepted := accepted + data[..result];
      } else if result == 0 {
        TurnRead(false);
      }
    }

    /** The twin is connected: it takes the client's id over. */
    method OnTwinOpened()
      requires Valid() && twin.Some?
      modifies this`twin, this`upstream, this`buffered, this`state, this`lookingUpDomain, this`suspectExclusion,
               this`lookupAttempts, this`firstPacket, this`fakeConnection, this`sendTask, this`readOn
      ensures Valid() && twin.None?
      ensures upstream == old(twin).value.upstream && buffered == old(twin).value.buffered
      ensures !closing ==> (readOn <==> buffered == [])
    {
      TakeOver();
      if buffered != [] {
        sendTask := true;
      } else {
        TurnRead(true);
      }
    }

    method TakeOver()
      requires Valid() && twin.Some?
      modifies this`twin, this`upstream, this`buffered, this`state, this`lookingUpDomain, this`suspectExclusion,
               this`lookupAttempts, this`firstPacket, this`fakeConnection
      ensures Valid() && twin.None? && !readOn
      ensures upstream == old(twin).value.upstream != Fake && buffered == old(twin).value.buffered
    {
      var t := twin.value;
      twin, upstream, buffered, state := None, t.upstream, t.buffered, Connected;
      lookingUpDomain, suspectExclusion, lookupAttempts := t.lookingUpDomain, false, 0;
      firstPacket, fakeConnection := false, false;
    }

    /** The twin could not connect: it is closed with what it had been given, and the source is left as it is. */
    method OnTwinFailed()
      requires Valid() && twin.Some?
      modifies this`twin, this`twinLost
      ensures Valid() && twin.None? && twinLost
    {
      twin, twinLost := None, true;
    }

    /** What is submitted by `schedule_send_buffered_data`. */
    method RunSendTask(answers: seq<int>, canSend: bool)
      requires Valid() && sendTask
      modifies this`buffered, this`sentOnReal, this`sentOnFake, this`readOn, this`sendTask
      ensures Valid() && !sendTask
      ensures var o := SendAll(old(buffered), answers); buffered == o.rest && sentOnReal == old(sentOnReal) + o.bytes
    {
      var _, _ := SendBufferedData(answers, canSend);
    }

    /** `SERVER_EVENT_DATA_SENT`, which the fake upstream does not raise. */
    method OnDataSent(canSend: bool)
      requires Valid() && upstream != Fake
      modifies this`readOn, this`sendTask
      ensures Valid() && (!closing ==> readOn == canSend) && (sendTask <==> old(sendTask) || buffered != [])
    {
      TurnRead(canSend);
      if buffered != [] {
        sendTask := true;
      }
    }

    /** A close from either side has been asked for. */
    method OnCloseRequested()
      requires Valid()
      modifies this`readOn, this`closing
      ensures Valid() && closing && !readOn
    {
      TurnOffAndClose();
    }
  }

  lemma CutFirst(packets: seq<seq<byte>>, n: nat)
    requires packets != [] && n <= |packets[0]|
    ensures Flatten(packets) == packets[0][..n] + Flatten([packets[0][n..]] + packets[1..])
  {
    var cut := [packets[0][n..]] + packets[1..];
    assert cut[1..] == packets[1..] && cut[0] == packets[0][n..];
    assert packets[0] == packets[0][..n] + packets[0][n..];
    Assoc(packets[0][..n], packets[0][n..], Flatten(packets[1..]));
  }

  // ---- Runs ----

  datatype Event =
    | Read(data: seq<byte>, lookup: Lookup, opens: bool, answers: seq<int>, canSend: bool)
    | TwinOpened
    | TwinFailed
    | SendTask(answers: seq<int>, canSend: bool)
    | DataSent(canSend: bool)
    | CloseRequested

  /**
   * For a connection first routed to the fake upstream, whatever happens, in whatever order: what was
   * sent on the real upstream, then what is still buffered, is what was taken from the client, unless a
   * twin failed: then everything that was taken is lost, and nothing had been sent. Nothing is ever sent
   * on the fake upstream.
   */
  method Run(route: Route, lookingUpDomain: bool, suspectExclusion: bool, events: seq<Event>)
    returns (taken: seq<byte>, sent: seq<byte>, waiting: seq<byte>, twinLost: bool, sentOnFake: nat)
    requires !route.earlyAck && SelectUpstream(Default, route, lookingUpDomain, suspectExclusion) == Some(Fake)
    ensures sent <= taken && (!twinLost ==> taken == sent + waiting) && sentOnFake == 0
    ensures twinLost ==> TwinFailed in events && sent == [] && waiting == []
    ensures taken == sent + waiting <==> !twinLost || taken == []
  {
    var conn := new Connection(route, lookingUpDomain, suspectExclusion);
    taken, twinLost := [], false;
    var i := 0;
    while i < |events|
      invariant fresh(conn) && conn.Valid() && conn.accepted == taken && conn.twinLost == twinLost
      invariant twinLost ==> TwinFailed in events
    {
      match events[i] {
        case Read(data, lookup, opens, answers, canSend) =>
          if conn.readOn {
            var r := conn.OnRead(data, lookup, opens, answers, canSend);
            if r > 0 {
              taken := taken + data[..r];
            }
          }
        case TwinOpened => if conn.twin.Some? { conn.OnTwinOpened(); }
        case TwinFailed =>
          if conn.twin.Some? {
            conn.OnTwinFailed();
            twinLost := true;
          }
        case SendTask(answers, canSend) => if conn.sendTask { conn.RunSendTask(answers, canSend); }
        case DataSent(canSend) => if conn.upstream != Fake { conn.OnDataSent(canSend); }
        case CloseRequested => conn.OnCloseRequested();
      }
      i := i + 1;
    }
    sent, sentOnFake := conn.sentOnReal, conn.sentOnFake;
    waiting := Flatten(if conn.twin.Some? then conn.twin.value.buffered else conn.buffered);
  }

  /** How bytes get lost: a packet is kept for the lookup, the next one makes the connection migrate, and the twin fails. */
  method TwinTakesPackets(route: Route, suspectExclusion: bool, data: seq<byte>, next: seq<byte>)
    returns (taken: int, sent: seq<byte>, waiting: seq<byte>)
    requires !route.earlyAck && SelectUpstream(Default, route, true, suspectExclusion) == Some(Fake)
    ensures taken == |data| && sent == [] && waiting == []
  {
    var conn := new Connection(route, true, suspectExclusion);
    taken := conn.OnRead(data, WantMore, true, [], true);
    var _ := conn.OnRead(next, Pass, true, [], true);
    conn.OnTwinFailed();
    sent, waiting := conn.sentOnReal, Flatten(conn.buffered);
  }
}
