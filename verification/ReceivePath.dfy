/**
 * The receive paths of the HTTP/2 and HTTP/3 upstreams for one TCP connection: data goes straight to
 * the tunnel while it takes it, and through the unread buffer otherwise.
 *
 * The tunnel's answers to read events are a parameter. An answer of zero usually comes with reads
 * turned off, but need not: a connection that has to be routed anew is answered with zero while its
 * close is still pending. The buffer's file operations succeed, and the buffer exists from the start.
 */
module ReceivePath {
  import opened Prelude
  import B = MemfileBuffer

  datatype Reply = Reply(taken: int, readOn: bool)

  // What an upstream tells the tunnel: `RemoteClosed` carries the size of the unread data.
  datatype Raised = RemoteClosed(unread: nat) | LocalClosed | Failed

  function ReplyAt(replies: seq<Reply>, i: nat): Reply {
    if i < |replies| then replies[i] else Reply(0, false)
  }

  function Taken(reply: Reply, size: nat): (r: int)
    ensures r == -1 || 0 <= r <= size
  {
    if reply.taken < 0 then -1 else Min(reply.taken, size)
  }

  function Prefix(data: seq<byte>, r: int): seq<byte>
    requires r <= |data|
  {
    if r > 0 then data[..r] else []
  }

  /** What a buffer with `room` bytes left keeps of `data`. */
  function Fitting(data: seq<byte>, room: nat): seq<byte> {
    data[..Min(|data|, room)]
  }

  // ---- When reading out ends ----

  /** Where a loop that reads out pending data stands. */
  datatype Turning = Turning(unread: nat, readOn: bool, failed: bool)

  predicate Goes(t: Turning) {
    t.readOn && t.unread > 0 && !t.failed
  }

  /** One turn, on a chunk of `size` bytes (of the pending ones, and at least one). */
  function Turn(t: Turning, reply: Reply, size: nat): Turning {
    if !Goes(t) then t
    else
      var r := Taken(reply, Min(Max(size, 1), t.unread));
      if r < 0 then t.(failed := true) else Turning(t.unread - r, reply.readOn, false)
  }

  /** The loop after `n` turns, for answers and chunks that never run out. */
  function Turns(t: Turning, replies: nat -> Reply, sizes: nat -> nat, n: nat): Turning {
    if n == 0 then t else Turn(Turns(t, replies, sizes, n - 1), replies(n - 1), sizes(n - 1))
  }

  /** Nothing is taken, and more is asked for. */
  predicate Idle(reply: Reply) {
    reply.taken == 0 && reply.readOn
  }

  ghost predicate Ends(t: Turning, replies: nat -> Reply, sizes: nat -> nat) {
    exists n: nat :: !Goes(Turns(t, replies, sizes, n))
  }

  ghost predicate IdleFrom(replies: nat -> Reply, n: nat) {
    forall m | m >= n :: Idle(replies(m))
  }

  ghost predicate Stuck(t: Turning, replies: nat -> Reply, sizes: nat -> nat, n: nat) {
    Goes(Turns(t, replies, sizes, n)) && IdleFrom(replies, n)
  }

  /** Reading out ends, unless from some turn on the tunnel only gives idle answers while data is pending. */
  lemma EndsExactly(t: Turning, replies: nat -> Reply, sizes: nat -> nat)
    ensures Ends(t, replies, sizes) <==> !exists n: nat :: Stuck(t, replies, sizes, n)
  {
    if n: nat :| Stuck(t, replies, sizes, n) {
      forall m: nat
        ensures Goes(Turns(t, replies, sizes, m))
      {
        if m <= n {
          Unfinished(t, replies, sizes, m, n);
        } else {
          StaysStuck(t, replies, sizes, n, m);
        }
      }
    }
    if !Ends(t, replies, sizes) {
      EndlessGetsStuck(t, replies, sizes, 0);
    }
  }

  lemma TurnTakes(unread: nat, reply: Reply, size: nat)
    requires 0 < size <= unread
    ensures var r := Taken(reply, size);
      Turn(Turning(unread, true, false), reply, size) ==
      if r < 0 then Turning(unread, true, true) else Turning(unread - r, reply.readOn, false)
  {
  }

  /** A turn that gets an idle answer changes nothing; any other ends the loop or leaves less to do. */
  lemma IdleTurn(t: Turning, reply: Reply, size: nat)
    requires Goes(t)
    ensures Turn(t, reply, size) == t <==> Idle(reply)
    ensures !Idle(reply) ==> !Goes(Turn(t, reply, size)) || Turn(t, reply, size).unread < t.unread
  {
  }

  lemma {:induction false} Unfinished(t: Turning, replies: nat -> Reply, sizes: nat -> nat, m: nat, n: nat)
    requires m <= n && Goes(Turns(t, replies, sizes, n))
    ensures Goes(Turns(t, replies, sizes, m)) && Turns(t, replies, sizes, n).unread <= Turns(t, replies, sizes, m).unread
    decreases n
  {
    if m < n {
      Unfinished(t, replies, sizes, m, n - 1);
    }
  }

  lemma {:induction false} StaysStuck(t: Turning, replies: nat -> Reply, sizes: nat -> nat, n: nat, m: nat)
    requires Stuck(t, replies, sizes, n) && n <= m
    ensures Turns(t, replies, sizes, m) == Turns(t, replies, sizes, n)
    decreases m
  {
    if n < m {
      StaysStuck(t, replies, sizes, n, m - 1);
      IdleTurn(Turns(t, replies, sizes, n), replies(m - 1), sizes(m - 1));
    }
  }

  lemma {:induction false} EndlessGetsStuck(t: Turning, replies: nat -> Reply, sizes: nat -> nat, n: nat)
    requires !Ends(t, replies, sizes)
    ensures exists k: nat :: Stuck(t, replies, sizes, k)
    decreases Turns(t, replies, sizes, n).unread
  {
    if IdleFrom(replies, n) {
      assert Stuck(t, replies, sizes, n);
    } else {
      var m: nat :| m >= n && !Idle(replies(m));
      Unfinished(t, replies, sizes, n, m);
      IdleTurn(Turns(t, replies, sizes, m), replies(m), sizes(m));
      EndlessGetsStuck(t, replies, sizes, m + 1);
    }
  }

  class Http3Stream {
    const unread: B.MemfileBuffer
    const window: nat                  // how much the peer may send ahead of the credit
    var readEnabled: bool
    var streamClosed: bool
    var pendingError: bool
    var alive: bool
    var completeReadTask: bool
    var closeRequested: bool           // an entry in `m_closing_connections`
    var closeTask: bool
    var closedNow: bool                // the client closed and did not want to wait
    var credit: nat                    // bytes returned with `consume_stream`
    var delivered: seq<byte>
    var raised: seq<Raised>
    var received: seq<byte>            // everything the peer sent

    ghost predicate Valid()
      reads this, unread, unread.mem
    {
      && unread.Valid() && unread.threshold > 0 && Counted() && (alive ==> Conserved())
    }

    /** One event per connection, except that a close that did not wait is raised again by the submitted one. */
    ghost predicate Counted()
      reads this
    {
      && |raised| == (if alive then 0 else if closedNow && !closeRequested then 2 else 1)
      && (closeRequested ==> closeTask) && (closedNow ==> !alive) && (closeRequested && !alive ==> closedNow)
      && (forall e | e in raised :: (closedNow ==> e == LocalClosed) && (e.RemoteClosed? ==> e.unread == 0))
    }

    /** While nothing overflowed: all that was received is delivered or unread, and credited once delivered. */
    ghost predicate Conserved()
      requires unread.Valid()
      reads this, unread, unread.mem
    {
      && |received| <= window + credit
      && (window <= unread.Capacity() ==>
            delivered + unread.Contents() == received && credit + |unread.Contents()| == |received|)
    }

    constructor (threshold: nat, maxFileSize: nat, window: nat)
      requires threshold > 0
      ensures Valid() && alive && !readEnabled && fresh(unread) && fresh(unread.mem) && received == [] && delivered == []
      ensures unread.Contents() == [] && this.window == window && unread.threshold == threshold && unread.maxFileSize == maxFileSize
    {
      unread := new B.MemfileBuffer(threshold, maxFileSize);
      this.window := window;
      readEnabled, streamClosed, pendingError, alive, completeReadTask := false, false, false, true, false;
      closeRequested, closeTask, closedNow := false, false, false;
      credit, delivered, raised, received := 0, [], [], [];
    }

    /** An event for the tunnel, and `clean_tcp_connection_data`. */
    method RaiseAndClean(event: Raised)
      requires unread.Valid() && unread.threshold > 0 && alive && Counted() && (event.RemoteClosed? ==> event.unread == 0)
      modifies this`raised, this`alive, this`closeRequested
      ensures Valid() && !alive && raised == [event] && !closeRequested
    {
      raised, alive, closeRequested := raised + [event], false, false;
    }

    method RaiseReadEvent(data: seq<byte>, reply: Reply) returns (r: int)
      modifies this`delivered, this`readEnabled
      ensures r == Taken(reply, |data|) && delivered == old(delivered) + Prefix(data, r)
      ensures readEnabled == if r >= 0 then reply.readOn else old(readEnabled)
    {
      r := Taken(reply, |data|);
      if r >= 0 {
        delivered, readEnabled := delivered + Prefix(data, r), reply.readOn;
      }
    }

    ghost predicate Direct()
      reads this, unread, unread.mem
    {
      readEnabled && unread.Contents() == []
    }

    /** `on_body`; the peer keeps within its flow control window. */
    method OnBody(chunk: seq<byte>, reply: Reply)
      requires Valid() && alive && |received| + |chunk| <= window + credit
      modifies this, unread, unread.mem
      ensures Valid() && closedNow == old(closedNow) && received == old(received) + chunk && (alive <==> !(old(Direct()) && reply.taken < 0))
      ensures delivered == old(delivered) + (if old(Direct()) then Prefix(chunk, Taken(reply, |chunk|)) else [])
      ensures alive ==>
                var rest := if old(Direct()) then chunk[Taken(reply, |chunk|)..] else chunk;
                && |old(unread.Contents())| <= unread.Capacity()
                && unread.Contents() == old(unread.Contents()) + Fitting(rest, unread.Capacity() - |old(unread.Contents())|)
    {
      var size := unread.Size();
      if readEnabled && size == 0 {
        Forward(chunk, reply);
      } else {
        Buffer(chunk);
      }
    }

    /** The tunnel is asked first, and the rest is buffered. */
    method Forward(chunk: seq<byte>, reply: Reply)
      requires Valid() && alive && |received| + |chunk| <= window + credit && unread.Contents() == []
      modifies this, unread, unread.mem
      ensures Valid() && closedNow == old(closedNow) && received == old(received) + chunk && (alive <==> reply.taken >= 0)
      ensures delivered == old(delivered) + Prefix(chunk, Taken(reply, |chunk|))
      ensures alive ==> unread.Contents() == Fitting(chunk[Taken(reply, |chunk|)..], unread.Capacity())
    {
      var r := RaiseReadEvent(chunk, reply);
      if r < 0 {
        RaiseAndClean(LocalClosed);
        credit, received := credit + |chunk|, received + chunk;
        return;
      }
      credit := credit + r;
      received := received + Prefix(chunk, r);
      Buffer(chunk[r..]);
      Rejoin(old(received), chunk, r);
    }

    /** The part of a chunk that was not delivered directly. */
    method Buffer(rest: seq<byte>)
      requires Valid() && alive && |received| + |rest| <= window + credit
      modifies this`received, unread, unread.mem
      ensures Valid() && received == old(received) + rest && |old(unread.Contents())| <= unread.Capacity()
      ensures unread.Contents() == old(unread.Contents()) + Fitting(rest, unread.Capacity() - |old(unread.Contents())|)
    {
      PushUnreadData(rest);
      if window <= unread.Capacity() {
        assert Fitting(rest, unread.Capacity() - |old(unread.Contents())|) == rest;
        assert delivered + (old(unread.Contents()) + rest) == (delivered + old(unread.Contents())) + rest;
      }
      received := received + rest;
    }

    /** `push_unread_data`; the caller does not look at its result. */
    method PushUnreadData(rest: seq<byte>)
      requires unread.Valid()
      modifies unread, unread.mem
      ensures unread.Valid() && |old(unread.Contents())| <= unread.Capacity()
      ensures unread.Contents() == old(unread.Contents()) + Fitting(rest, unread.Capacity() - |old(unread.Contents())|)
    {
      var _ := unread.Size();
      if rest != [] {
        var _, accepted := unread.PushAll(rest);
      } else {
        assert unread.Contents() + rest == unread.Contents();
      }
    }

    /** One turn of the loop below. */
    method DeliverChunk(reply: Reply) returns (r: int, size: nat)
      requires Valid() && alive && readEnabled && unread.Contents() != []
      modifies this`delivered, this`readEnabled, this`credit, unread, unread.mem
      ensures Valid() && old(delivered) <= delivered && r == Taken(reply, size)
      ensures 0 < size <= |old(unread.Contents())| && (r > 0 ==> old(delivered) < delivered)
      ensures Turning(|unread.Contents()|, readEnabled, r < 0) ==
              Turn(Turning(|old(unread.Contents())|, true, false), reply, size)
      ensures r <= 0 ==> unread.Contents() == old(unread.Contents()) && delivered == old(delivered)
    {
      ghost var contents := unread.Contents();
      var chunk := unread.Front();
      size := |chunk|;
      TurnTakes(|contents|, reply, size);
      r := Offer(chunk, reply);
    }

    /** The tunnel is offered the front of what is unread; what it takes is drained and credited. */
    method Offer(chunk: seq<byte>, reply: Reply) returns (r: int)
      requires Valid() && alive && chunk <= unread.Contents() && |chunk| <= unread.mem.totalSize
      modifies this`delivered, this`readEnabled, this`credit, unread, unread.mem
      ensures Valid() && r == Taken(reply, |chunk|) && delivered == old(delivered) + Prefix(chunk, r)
      ensures readEnabled == if r >= 0 then reply.readOn else old(readEnabled)
      ensures unread.Contents() == old(unread.Contents())[Max(r, 0)..]
    {
      ghost var contents := unread.Contents();
      r := RaiseReadEvent(chunk, reply);
      if r > 0 {
        unread.Advance(r);
        credit := credit + r;
        Moved(old(delivered), contents, chunk, r);
      }
    }

    /** `read_out_pending_data`. */
    method ReadOutPendingData(replies: seq<Reply>) returns (r: int)
      requires Valid() && alive
      modifies this`delivered, this`readEnabled, this`credit, unread, unread.mem
      ensures Valid() && old(delivered) <= delivered
      ensures r == 0 ==> !readEnabled || unread.Contents() == []
      ensures !old(readEnabled) ==> delivered == old(delivered) && !readEnabled && r == 0
      ensures old(readEnabled) && old(unread.Contents()) != [] && ReplyAt(replies, 0).taken > 0 ==> old(delivered) < delivered
    {
      var i := 0;
      while readEnabled
        modifies this`delivered, this`readEnabled, this`credit, unread, unread.mem
        invariant Valid() && alive && old(delivered) <= delivered && 0 <= i
        invariant i == 0 ==> delivered == old(delivered) && readEnabled == old(readEnabled)
        invariant i == 0 ==> |unread.Contents()| == |old(unread.Contents())|
        invariant i > 0 ==> old(readEnabled) && (ReplyAt(replies, 0).taken > 0 ==> old(delivered) < delivered)
        decreases |unread.Contents()|, readEnabled, |replies| - i
      {
        var size := unread.Size();
        if size == 0 {
          break;
        }
        r, size := DeliverChunk(ReplyAt(replies, i));
        i := i + 1;
        if r < 0 {
          return;
        }
      }
      return 0;
    }

    /** `process_pending_data`. */
    method ProcessPendingData(replies: seq<Reply>)
      requires Valid() && alive
      modifies this, unread, unread.mem
      ensures Valid() && closedNow == old(closedNow) && received == old(received) && old(delivered) <= delivered
      ensures alive ==> !readEnabled || unread.Contents() == []
      ensures alive && streamClosed ==> unread.Contents() != []
      ensures completeReadTask == old(completeReadTask) && (!old(readEnabled) ==> delivered == old(delivered))
      ensures old(readEnabled) && old(unread.Contents()) != [] && ReplyAt(replies, 0).taken > 0 ==> old(delivered) < delivered
    {
      var r := ReadOutPendingData(replies);
      if r != 0 {
        RaiseAndClean(LocalClosed);
        return;
      }
      var size := unread.Size();
      if streamClosed && size == 0 {
        RaiseAndClean(RemoteClosed(size));
      }
    }

    /** `complete_read`, submitted by `update_flow_control`. */
    method CompleteRead(replies: seq<Reply>)
      requires Valid() && alive
      modifies this, unread, unread.mem
      ensures Valid() && closedNow == old(closedNow) && received == old(received) && old(delivered) <= delivered && !completeReadTask
      ensures old(readEnabled) && old(unread.Contents()) != [] && ReplyAt(replies, 0).taken > 0 ==> old(delivered) < delivered
    {
      completeReadTask := false;
      var size := unread.Size();
      if size > 0 {
        ProcessPendingData(replies);
      }
    }

    /** `poll_tcp_connections`, which also reads out what is pending. */
    method Poll(replies: seq<Reply>)
      requires Valid() && alive
      modifies this, unread, unread.mem
      ensures Valid() && closedNow == old(closedNow) && received == old(received) && old(delivered) <= delivered
      ensures !(old(readEnabled) && !old(streamClosed) && old(unread.Contents()) != []) ==> delivered == old(delivered) && alive
      ensures old(readEnabled) && !old(streamClosed) && old(unread.Contents()) != [] && ReplyAt(replies, 0).taken > 0 ==>
                old(delivered) < delivered
    {
      var size := unread.Size();
      if readEnabled && !streamClosed && size > 0 {
        ProcessPendingData(replies);
      }
    }

    /** `on_stream_closed`: the close is postponed while data is unread, unless it is an error. */
    method OnStreamClosed()
      requires Valid() && alive
      modifies this`alive, this`raised, this`streamClosed, this`closeRequested
      ensures Valid() && (alive <==> !pendingError && unread.Contents() != []) && (alive ==> streamClosed)
      ensures raised == if pendingError then [Failed] else if unread.Contents() == [] then [RemoteClosed(0)] else []
    {
      var size := unread.Size();
      if pendingError {
        RaiseAndClean(Failed);
      } else if size == 0 {
        RaiseAndClean(RemoteClosed(size));
      } else {
        streamClosed := true;
      }
    }

    /** `close_connection`, called by the tunnel; without `async` the connection is closed at once, and again later. */
    method CloseConnection(async: bool)
      requires Valid() && alive
      modifies this`alive, this`raised, this`closeRequested, this`closeTask, this`closedNow
      ensures Valid() && alive == async && raised == (if async then [] else [LocalClosed]) && closeRequested && closeTask
    {
      if !async {
        RaiseAndClean(LocalClosed);
        closedNow := true;
      }
      closeRequested, closeTask := true, true;
    }

    /** What `close_connection` submits. */
    method RunCloseTask()
      requires Valid() && closeTask
      modifies this`alive, this`raised, this`closeRequested, this`closeTask
      ensures Valid() && !closeTask && !closeRequested && (old(closeRequested) ==> !alive)
      ensures raised == old(raised) + (if old(closeRequested) then [LocalClosed] else [])
    {
      closeTask := false;
      if closeRequested {
        raised, alive, closeRequested := raised + [LocalClosed], false, false;
      }
    }

    /** `update_flow_control`. */
    method UpdateFlowControl(on: bool)
      requires Valid() && alive
      modifies this`readEnabled, this`completeReadTask
      ensures Valid() && readEnabled == on
      ensures !old(readEnabled) && on && unread.Contents() != [] ==> completeReadTask
    {
      if readEnabled == on {
        return;
      }
      readEnabled := on;
      var size := unread.Size();
      if readEnabled && !completeReadTask && size > 0 {
        completeReadTask := true;
      }
    }
  }

  class Http2Stream {
    const unread: B.MemfileBuffer
    const window: nat                  // the largest receive window given to the stream
    var readEnabled: bool
    var streamClosed: bool
    var clientClosed: bool
    var alive: bool
    var completeReadTask: bool
    var closeTask: bool
    var overflowed: bool               // the buffer had no room for some of the data
    var credit: nat                    // bytes returned with `consume`
    var delivered: seq<byte>
    var raised: seq<Raised>
    var received: seq<byte>            // everything the peer sent

    ghost predicate Valid()
      reads this, unread, unread.mem
    {
      && unread.Valid() && unread.threshold > 0
      && |raised| == (if alive then 0 else 1)
      && (raised != [] && raised[0].RemoteClosed? ==> raised[0].unread == 0 || clientClosed)
      && Conserved()
    }

    /** Bytes are delivered or unread; credit is given for delivered ones only, so unread ones fit in a window. */
    ghost predicate Conserved()
      reads this, unread, unread.mem
    {
      && credit <= |delivered| && |received| <= window + credit
      && (alive && !clientClosed && !overflowed ==> delivered + unread.Contents() == received)
      && (window <= unread.Capacity() && !clientClosed ==> !overflowed)
    }

    constructor (threshold: nat, maxFileSize: nat, window: nat)
      requires threshold > 0
      ensures Valid() && alive && !clientClosed && !overflowed && fresh(unread) && fresh(unread.mem)
      ensures received == [] && delivered == [] && unread.threshold == threshold && unread.maxFileSize == maxFileSize
      ensures this.window == window
    {
      unread := new B.MemfileBuffer(threshold, maxFileSize);
      this.window := window;
      readEnabled, streamClosed, clientClosed, alive, completeReadTask := false, false, false, true, false;
      closeTask, overflowed, credit, delivered, raised, received := false, false, 0, [], [], [];
    }

    /** `consume`: the client's listener has passed on `n` more of the bytes it was given. */
    method Consume(n: nat)
      requires Valid() && credit + n <= |delivered|
      modifies this`credit
      ensures Valid() && credit == old(credit) + n
    {
      credit := credit + n;
    }

    /** `close_connection`, called by the tunnel. */
    method CloseConnection(async: bool)
      requires Valid() && alive
      modifies this`clientClosed, this`alive, this`raised, this`closeTask
      ensures Valid() && (async ==> closeTask && alive && clientClosed == old(clientClosed))
      ensures !async ==> (if streamClosed then !alive && raised == [LocalClosed] else alive && clientClosed)
    {
      if !async {
        CloseTcpConnection();
        return;
      }
      closeTask := true;
    }

    /** What `close_connection` submits; it is cancelled with the connection. */
    method RunCloseTask()
      requires Valid() && alive && closeTask
      modifies this`clientClosed, this`alive, this`raised, this`closeTask
      ensures Valid() && !closeTask
      ensures if streamClosed then !alive && raised == [LocalClosed] else alive && clientClosed
    {
      closeTask := false;
      CloseTcpConnection();
    }

    /** `close_tcp_connection`: an open stream is reset and cleaned up later. */
    method CloseTcpConnection()
      requires Valid()
      modifies this`clientClosed, this`alive, this`raised
      ensures Valid() && (alive <==> old(alive) && !streamClosed)
      ensures clientClosed == (old(clientClosed) || (old(alive) && !streamClosed))
      ensures raised == if old(alive) && streamClosed then [LocalClosed] else old(raised)
    {
      if alive {
        if !streamClosed {
          clientClosed := true;
          return;
        }
        alive, raised := false, [LocalClosed];
      }
    }

    /** `handle_read`. */
    method HandleRead(data: seq<byte>, reply: Reply) returns (r: int)
      requires unread.Valid() && Valid()
      modifies this`delivered, this`readEnabled, this`clientClosed, this`alive, this`raised
      ensures r == Taken(reply, |data|) && delivered == old(delivered) + Prefix(data, r)
      ensures readEnabled == if r >= 0 then reply.readOn else old(readEnabled)
      ensures r >= 0 ==> clientClosed == old(clientClosed) && alive == old(alive) && raised == old(raised)
      ensures r < 0 ==> Valid() && (old(alive) ==> !alive || clientClosed)
    {
      r := Taken(reply, |data|);
      if r >= 0 {
        delivered, readEnabled := delivered + Prefix(data, r), reply.readOn;
      } else {
        CloseTcpConnection();
      }
    }

    /** `read_out_pending_data`. */
    method ReadOutPendingData(replies: seq<Reply>) returns (r: int, used: nat)
      requires Valid() && alive
      modifies this`delivered, this`readEnabled, this`clientClosed, this`alive, this`raised, unread, unread.mem
      ensures Valid() && old(delivered) <= delivered && -1 <= r <= 0 && |unread.Contents()| <= old(|unread.Contents()|)
      ensures r == 0 ==> alive && clientClosed == old(clientClosed) && (!readEnabled || unread.Contents() == [])
      ensures r < 0 ==> !alive || clientClosed
      ensures !old(readEnabled) ==> delivered == old(delivered) && !readEnabled && r == 0
      ensures old(unread.Contents()) == [] ==> delivered == old(delivered) && readEnabled == old(readEnabled) && used == 0 && r == 0
      ensures old(readEnabled) && old(unread.Contents()) != [] && ReplyAt(replies, 0).taken > 0 ==> old(delivered) < delivered
    {
      used := 0;
      while readEnabled
        modifies this`delivered, this`readEnabled, this`clientClosed, this`alive, this`raised, unread, unread.mem
        invariant Valid() && alive && clientClosed == old(clientClosed) && old(delivered) <= delivered
        invariant used == 0 ==> delivered == old(delivered) && readEnabled == old(readEnabled)
        invariant used == 0 ==> |unread.Contents()| == |old(unread.Contents())|
        invariant used > 0 ==> old(readEnabled) && old(unread.Contents()) != []
        invariant used > 0 && ReplyAt(replies, 0).taken > 0 ==> old(delivered) < delivered
        invariant |unread.Contents()| <= old(|unread.Contents()|)
        decreases |unread.Contents()|, readEnabled, |replies| - used
      {
        var size := unread.Size();
        if size == 0 {
          break;
        }
        r, size := DeliverChunk(ReplyAt(replies, used));
        used := used + 1;
        if r < 0 {
          return;
        }
      }
      r := 0;
    }

    /** One turn of the loop above. */
    method DeliverChunk(reply: Reply) returns (r: int, size: nat)
      requires Valid() && alive && readEnabled && unread.Contents() != []
      modifies this`delivered, this`readEnabled, this`clientClosed, this`alive, this`raised, unread, unread.mem
      ensures Valid() && old(delivered) <= delivered && -1 <= r && r == Taken(reply, size)
      ensures r >= 0 ==> alive && clientClosed == old(clientClosed)
      ensures 0 < size <= |old(unread.Contents())| && (r > 0 ==> old(delivered) < delivered)
      ensures Turning(|unread.Contents()|, readEnabled, r < 0) ==
              Turn(Turning(|old(unread.Contents())|, true, false), reply, size)
      ensures r <= 0 ==> unread.Contents() == old(unread.Contents()) && delivered == old(delivered)
      ensures r < 0 ==> !alive || clientClosed
    {
      ghost var contents := unread.Contents();
      var chunk := unread.Front();
      size := |chunk|;
      TurnTakes(|contents|, reply, size);
      r := Offer(chunk, reply);
    }

    /** The tunnel is offered the front of what is unread; what it takes is drained. */
    method Offer(chunk: seq<byte>, reply: Reply) returns (r: int)
      requires Valid() && alive && chunk <= unread.Contents() && |chunk| <= unread.mem.totalSize
      modifies this`delivered, this`readEnabled, this`clientClosed, this`alive, this`raised, unread, unread.mem
      ensures Valid() && r == Taken(reply, |chunk|) && delivered == old(delivered) + Prefix(chunk, r)
      ensures readEnabled == if r >= 0 then reply.readOn else old(readEnabled)
      ensures unread.Contents() == old(unread.Contents())[Max(r, 0)..]
      ensures if r >= 0 then alive && clientClosed == old(clientClosed) else !alive || clientClosed
    {
      ghost var contents := unread.Contents();
      r := HandleRead(chunk, reply);
      if r > 0 {
        unread.Advance(r);
        Moved(old(delivered), contents, chunk, r);
      }
    }

    /** `HTTP_EVENT_DATA`, within the window; a negative result makes the session give the stream up. */
    method OnData(data: seq<byte>, replies: seq<Reply>) returns (result: int)
      requires Valid() && alive && |received| + |data| <= window + credit
      modifies this, unread, unread.mem
      ensures Valid() && received == old(received) + data && old(delivered) <= delivered && -1 <= result <= 0
      ensures |unread.Contents()| <= old(|unread.Contents()|) + |data| && (old(overflowed) ==> overflowed)
      ensures old(|unread.Contents()|) + |data| <= unread.Capacity() ==> overflowed == old(overflowed)
      ensures !old(readEnabled) ==> delivered == old(delivered)
      ensures old(readEnabled) && old(unread.Contents()) == [] ==>
                delivered == old(delivered) + Prefix(data, Taken(ReplyAt(replies, 0), |data|))
    {
      var used;
      result, used := ReadOutPendingData(replies);
      if result < 0 {
        received := received + data;
        return;
      }
      result := Deliver(data, ReplyAt(replies, used));
    }

    /** The new data, once what was pending is delivered or reads are off. */
    method Deliver(data: seq<byte>, reply: Reply) returns (result: int)
      requires Valid() && alive && (readEnabled ==> unread.Contents() == []) && |received| + |data| <= window + credit
      modifies this, unread, unread.mem
      ensures Valid() && received == old(received) + data && old(delivered) <= delivered && -1 <= result <= 0
      ensures |unread.Contents()| <= old(|unread.Contents()|) + |data| && (old(overflowed) ==> overflowed)
      ensures old(|unread.Contents()|) + |data| <= unread.Capacity() ==> overflowed == old(overflowed)
      ensures delivered == old(delivered) + (if old(readEnabled) then Prefix(data, Taken(reply, |data|)) else [])
    {
      if readEnabled {
        result := Forward(data, reply);
      } else {
        result := Store(data);
        assert delivered + (old(unread.Contents()) + data) == (delivered + old(unread.Contents())) + data;
        received := received + data;
      }
    }

    /** The tunnel is asked first, and the rest is buffered. */
    method Forward(data: seq<byte>, reply: Reply) returns (result: int)
      requires Valid() && alive && unread.Contents() == [] && |received| + |data| <= window + credit
      modifies this, unread, unread.mem
      ensures Valid() && received == old(received) + data && old(delivered) <= delivered && -1 <= result <= 0
      ensures |unread.Contents()| <= |data| && (old(overflowed) ==> overflowed)
      ensures |data| <= unread.Capacity() ==> overflowed == old(overflowed)
      ensures delivered == old(delivered) + Prefix(data, Taken(reply, |data|))
    {
      var r := HandleRead(data, reply);
      received := received + data;
      if r < 0 {
        return -1;
      }
      result := Store(data[r..]);
      Rejoin(old(delivered), data, r);
      assert [] + data[r..] == data[r..];
    }

    /** What the tunnel left over goes to the buffer. */
    method Store(rest: seq<byte>) returns (result: int)
      requires unread.Valid()
      modifies this`overflowed, unread, unread.mem
      ensures unread.Valid() && -1 <= result <= 0 && |unread.Contents()| <= |old(unread.Contents())| + |rest|
      ensures overflowed == (old(overflowed) || |old(unread.Contents())| + |rest| > unread.Capacity())
      ensures !overflowed ==> unread.Contents() == old(unread.Contents()) + rest
    {
      result := 0;
      if rest != [] {
        var size := unread.Size();
        overflowed := overflowed || size + |rest| > unread.threshold + unread.maxFileSize;
        var err, accepted := unread.PushAll(rest);
        assert !overflowed ==> rest[..accepted] == rest;
        if err {
          result := -1;
        }
      } else {
        assert unread.Contents() + rest == unread.Contents();
      }
    }

    /** `complete_read`. */
    method CompleteRead(replies: seq<Reply>)
      requires Valid() && alive
      modifies this, unread, unread.mem
      ensures Valid() && received == old(received) && old(delivered) <= delivered
      ensures alive && !clientClosed ==> !readEnabled || unread.Contents() == []
      ensures alive && streamClosed ==> unread.Contents() != []
      ensures |unread.Contents()| <= old(|unread.Contents()|) && overflowed == old(overflowed)
      ensures !completeReadTask && (!old(readEnabled) ==> delivered == old(delivered))
      ensures old(readEnabled) && old(unread.Contents()) != [] && ReplyAt(replies, 0).taken > 0 ==> old(delivered) < delivered
    {
      completeReadTask := false;
      var r, _ := ReadOutPendingData(replies);
      if r < 0 {
        CloseTcpConnection();
        return;
      }
      FinishRead();
    }

    /** A close that was postponed is raised once everything has been read. */
    method FinishRead()
      requires Valid() && alive
      modifies this`alive, this`raised
      ensures Valid() && (alive <==> !(streamClosed && unread.Contents() == []))
    {
      var size := unread.Size();
      if size == 0 && streamClosed {
        alive, raised := false, [RemoteClosed(size)];
      }
    }

    /** `HTTP_EVENT_STREAM_PROCESSED`: a close is postponed while data is unread, unless it was ours or an error. */
    method OnStreamProcessed(error: bool)
      requires Valid() && alive
      modifies this`alive, this`raised, this`streamClosed
      ensures Valid() && streamClosed && (alive <==> !error && !clientClosed && unread.Contents() != [])
      ensures raised == if error then [Failed] else if alive then [] else [RemoteClosed(|unread.Contents()|)]
    {
      streamClosed := true;
      var size := unread.Size();
      if error {
        alive, raised := false, [Failed];
      } else if clientClosed || size == 0 {
        alive, raised := false, [RemoteClosed(size)];
      }
    }

    /** `update_flow_control`. */
    method UpdateFlowControl(on: bool)
      requires Valid() && alive
      modifies this`readEnabled, this`completeReadTask
      ensures Valid() && readEnabled == on && (on && unread.Contents() != [] ==> completeReadTask)
    {
      readEnabled := on;
      var size := unread.Size();
      if readEnabled && !completeReadTask && size > 0 {
        completeReadTask := true;
      }
    }
  }

  lemma Rejoin(received: seq<byte>, chunk: seq<byte>, r: nat)
    requires r <= |chunk|
    ensures (received + Prefix(chunk, r)) + chunk[r..] == received + chunk
  {
  }

  lemma Moved(delivered: seq<byte>, contents: seq<byte>, chunk: seq<byte>, r: nat)
    requires chunk <= contents && 0 < r <= |chunk|
    ensures (delivered + Prefix(chunk, r)) + contents[r..] == delivered + contents
  {
    assert contents == chunk[..r] + contents[r..];
  }

  // ---- Runs ----

  datatype Event =
    | Body(data: seq<byte>, replies: seq<Reply>)
    | Flow(on: bool)
    | Task(replies: seq<Reply>)        // `complete_read`
    | Poll(replies: seq<Reply>)        // HTTP/3 only
    | Consumed(n: nat)                 // HTTP/2 only
    | Closed(error: bool)
    | ClientClose(async: bool)
    | CloseTask

  /** One event on an HTTP/3 connection; `passed` is false if it cannot happen now. */
  method StepHttp3(s: Http3Stream, event: Event) returns (passed: bool)
    requires s.Valid()
    modifies s, s.unread, s.unread.mem
    ensures s.Valid() && (s.closedNow ==> old(s.closedNow) || event == ClientClose(false))
    ensures passed == match event
                      case Body(data, _) => old(s.alive) && |old(s.received)| + |data| <= s.window + old(s.credit)
                      case Task(_) => old(s.alive) && old(s.completeReadTask)
                      case CloseTask => old(s.closeTask)
                      case Consumed(_) => false
                      case _ => old(s.alive)
    ensures s.received == old(s.received) + if passed && event.Body? then event.data else []
  {
    passed := s.alive;
    match event {
      case Body(data, replies) =>
        passed := s.alive && |s.received| + |data| <= s.window + s.credit;
        if passed { s.OnBody(data, ReplyAt(replies, 0)); }
      case Flow(on) => if passed { s.UpdateFlowControl(on); }
      case Task(replies) =>
        passed := s.alive && s.completeReadTask;
        if passed { s.CompleteRead(replies); }
      case Poll(replies) => if passed { s.Poll(replies); }
      case Consumed(_) => passed := false;
      case Closed(error) =>
        if passed {
          s.pendingError := error;
          s.OnStreamClosed();
        }
      case ClientClose(async) => if passed { s.CloseConnection(async); }
      case CloseTask =>
        passed := s.closeTask;
        if passed { s.RunCloseTask(); }
    }
  }

  /**
   * HTTP/3: whatever happens, if the buffer can hold a whole flow control window then an open
   * connection has delivered or still holds every byte received, and credit has been returned for
   * exactly what was delivered. A remote close is raised only once everything is delivered. A closed
   * connection was reported once, except that a close which did not wait is reported a second time
   * by the close it also submits.
   */
  method RunHttp3(threshold: nat, maxFileSize: nat, window: nat, events: seq<Event>)
    returns (received: seq<byte>, delivered: seq<byte>, left: nat, credit: nat, alive: bool, raised: seq<Raised>,
             closedNow: bool, closeRequested: bool)
    requires threshold > 0 && window <= threshold + maxFileSize
    ensures alive ==> delivered <= received && |delivered| + left == |received| && credit + left == |received|
    ensures alive ==> left <= window
    ensures |raised| == if alive then 0 else if closedNow && !closeRequested then 2 else 1
    ensures forall e | e in raised :: (closedNow ==> e == LocalClosed) && (e.RemoteClosed? ==> e.unread == 0)
    ensures closedNow ==> ClientClose(false) in events
  {
    var s := new Http3Stream(threshold, maxFileSize, window);
    received := [];
    for i := 0 to |events|
      invariant fresh(s) && fresh(s.unread) && fresh(s.unread.mem) && s.Valid() && s.received == received
      invariant s.window == window && s.unread.Capacity() == threshold + maxFileSize
      invariant s.closedNow ==> ClientClose(false) in events[..i]
    {
      var passed := StepHttp3(s, events[i]);
      received := received + if passed && events[i].Body? then events[i].data else [];
    }
    assert events[..|events|] == events;
    delivered, credit, alive, raised, closedNow := s.delivered, s.credit, s.alive, s.raised, s.closedNow;
    closeRequested := s.closeRequested;
    left := s.unread.Size();
  }

  /** The input that shows the second report: the client closes without waiting, and the submitted task runs. */
  method ReportedTwice(threshold: nat, maxFileSize: nat, window: nat) returns (raised: seq<Raised>)
    requires threshold > 0
    ensures raised == [LocalClosed, LocalClosed]
  {
    var s := new Http3Stream(threshold, maxFileSize, window);
    s.CloseConnection(false);
    s.RunCloseTask();
    raised := s.raised;
  }

  /** The buffer has to hold a window: otherwise a peer that uses its window loses exactly the excess. */
  method SmallBufferLoses(threshold: nat, maxFileSize: nat, data: seq<byte>) returns (lost: nat)
    requires threshold > 0
    ensures lost == Max(0, |data| - (threshold + maxFileSize))
  {
    var s := new Http3Stream(threshold, maxFileSize, |data|);
    s.OnBody(data, Reply(0, false));
    var left := s.unread.Size();
    lost := |data| - left;
  }

  /** One event on an HTTP/2 connection. */
  method StepHttp2(s: Http2Stream, event: Event) returns (passed: bool)
    requires s.Valid() && s.alive
    modifies s, s.unread, s.unread.mem
    ensures s.Valid() && (s.clientClosed ==> old(s.clientClosed) || event.Body? || event.Task? || event.ClientClose? || event.CloseTask?)
    ensures passed == match event
                      case Body(data, _) => |old(s.received)| + |data| <= s.window + old(s.credit)
                      case Task(_) => old(s.completeReadTask)
                      case CloseTask => old(s.closeTask)
                      case Consumed(n) => old(s.credit) + n <= |old(s.delivered)|
                      case Poll(_) => false
                      case _ => true
    ensures s.received == old(s.received) + if passed && event.Body? then event.data else []
    ensures |s.unread.Contents()| - |old(s.unread.Contents())| <= |s.received| - |old(s.received)|
    ensures |old(s.unread.Contents())| + (|s.received| - |old(s.received)|) <= s.unread.Capacity() ==> s.overflowed == old(s.overflowed)
  {
    passed := true;
    match event {
      case Body(data, replies) =>
        passed := |s.received| + |data| <= s.window + s.credit;
        if passed { var _ := s.OnData(data, replies); }
      case Flow(on) => s.UpdateFlowControl(on);
      case Task(replies) =>
        passed := s.completeReadTask;
        if passed { s.CompleteRead(replies); }
      case Consumed(n) =>
        passed := s.credit + n <= |s.delivered|;
        if passed { s.Consume(n); }
      case Poll(_) => passed := false;
      case Closed(error) => s.OnStreamProcessed(error);
      case ClientClose(async) => s.CloseConnection(async);
      case CloseTask =>
        passed := s.closeTask;
        if passed { s.RunCloseTask(); }
    }
  }

  /**
   * HTTP/2: the same until the client closes, as long as the buffer was never asked to hold more than
   * its capacity; it never is if it can hold a window, since credit is given for delivered bytes only.
   */
  method RunHttp2(threshold: nat, maxFileSize: nat, window: nat, events: seq<Event>)
    returns (received: seq<byte>, delivered: seq<byte>, left: nat, overflowed: bool, alive: bool, clientClosed: bool,
             raised: seq<Raised>)
    requires threshold > 0
    ensures alive && !clientClosed && !overflowed ==> delivered <= received && |delivered| + left == |received| && left <= window
    ensures window <= threshold + maxFileSize && !clientClosed ==> !overflowed
    ensures |received| <= threshold + maxFileSize ==> !overflowed
    ensures |raised| == (if alive then 0 else 1) && forall e | e in raised && e.RemoteClosed? :: e.unread == 0 || clientClosed
  {
    var s := new Http2Stream(threshold, maxFileSize, window);
    received := [];
    var i := 0;
    while i < |events| && s.alive
      invariant fresh(s) && fresh(s.unread) && fresh(s.unread.mem) && s.Valid() && s.received == received
      invariant s.window == window && s.unread.Capacity() == threshold + maxFileSize
      invariant |s.unread.Contents()| <= |received|
      invariant |received| <= threshold + maxFileSize ==> !s.overflowed
    {
      var passed := StepHttp2(s, events[i]);
      received := received + if passed && events[i].Body? then events[i].data else [];
      i := i + 1;
    }
    delivered, overflowed, alive, clientClosed, raised := s.delivered, s.overflowed, s.alive, s.clientClosed, s.raised;
    left := s.unread.Size();
  }
}
