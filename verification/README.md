# Verification of the TrustTunnel client core

A Dafny model of the parts of the TrustTunnel VPN client where state is spread over several handlers,
queues and tables, with proofs of what every run of them keeps.

| file | what it models |
|---|---|
| `Prelude.dfy` | options, bytes, flattening of chunk lists |
| `EventLoop.dfy` | the event loop's two queues, as interleaved critical sections of client threads and the loop thread |
| `TunnelTables.dfy` | the tunnel's connection tables, with closing from either side and migration between upstreams |
| `TunnelBytes.dfy` | the outgoing bytes of a TCP connection that starts on the fake upstream |
| `ReceivePath.dfy` | the receive paths of the HTTP/2 and HTTP/3 upstreams, on top of the buffer below |
| `SpillStore.dfy`, `MemfileBuffer.dfy` | the memory-and-file buffer on values, with file operations that fail, and the buffers in place |
| `UdpWire.dfy`, `UdpMux.dfy` | the UDP-over-HTTP packet format, its receiver and its connection tables |
| `DnsFraming.dfy` | DNS messages over TCP and the two decoders of them |
| `DnsClient.dfy`, `DnsTimeouts.dfy` | the DNS client's request tables, deadlines and timer, and whom the timer fails |
| `Fsm.dfy`, `VpnFsm.dfy` | the state machine interpreter, and the session manager that it drives |
| `Connectors.dfy` | connecting through one upstream, and through a main and a fallback one |
| `DomainFilter.dfy`, `PortRanges.dfy` | the exclusion list and sets of ports |

Code that updates objects in place is a class whose methods are tied, step by step, to functions on
values (`View() == Next(old(View()), ...)`); what holds in every run is then proved about those
functions. Smaller state machines carry their invariant in `Valid()`, and a method without a
`modifies` clause drives them through an arbitrary list of events.

## What is proved

- **Event loop.** In every interleaving each task is in exactly one place, is finalized once, runs at
  most once and before that, and never after a cancel that found it; a filled queue always has one
  run callback on its way; a pass handles at most 64 tasks, all queued before it began.
- **Tunnel tables.** Over every run both tables lead to live connections under their own id, and
  deleting a connection removes its own entries and no others. A completion that binds a second
  upstream id breaks this, exactly when the first is still in the table. Every live connection stays
  findable, except in exactly one situation: a migration completes after the source's upstream side
  has already ended. Both situations are reached by runs that are given.
- **Tunnel bytes.** For a connection that starts on the fake upstream: what was sent on the real
  upstream, followed by what is buffered, is what was taken from the client, unless the new connection
  fails: then nothing had been sent and all that was taken is lost, as a run that is given shows. No send ever reaches the fake upstream, though every
  send goes to the upstream the connection is on: a lookup that ends routes the connection elsewhere.
- **Receive paths.** Delivered bytes followed by unread bytes are the received bytes (for HTTP/2, until
  the client closes). Credit is returned for delivered bytes only, for HTTP/3 for exactly those, so
  unread data fits in one flow control window (section 4.1 of RFC 9000, section 5.2 of RFC 9113), and
  nothing is lost if the buffer holds a window; otherwise a full window loses exactly the excess. A
  remote close is raised only when nothing is unread (for HTTP/2, unless the client closed). A
  connection is reported closed once, except that an HTTP/3 connection closed without waiting is
  reported again by the close it also submits. Reading out pending data ends, if and only if the
  tunnel does not from some turn on only give answers that take nothing and ask for more.
- **Buffer.** Without I/O faults a push keeps exactly what the capacity allows. With any file operation
  of a push failing, over runs of any length: what was read followed by what is held is what was
  accepted, at every moment and whatever the bytes are, if and only if each push finds memory full or nothing unread in the file,
  and none loses the file. Memory that is read while the file is closed breaks the first, and a strip
  whose rollback cannot rename the old file back is what loses one, if something in it is unread. Runs
  that do so are given; a strip that fails in any other way leaves the contents alone.
- **UDP multiplexing.** Receiving does not depend on chunking; packets stay aligned whatever happens
  to the tables in between; the index leads only to live connections. Closing a connection keeps the
  others reachable if and only if none of them shares its address pair; two connections that do, and
  the second one lost, are given.
- **DNS client.** Every accepted request is answered once before its id is used again, under its own
  transaction id; whoever waits has the timer set for their deadline or earlier, and when it fires
  nobody overdue is left. The timer fails a deferred request only when its own deadline has passed. It
  may fail one in flight early, exactly when an entry of an older request under the same id is left,
  which a run that lets the ids come round reaches. Framing round-trips for messages of up to 65535 bytes, and only for them; a
  reconnect reads correctly if and only if the old stream ended between messages.
- **Session manager.** Every postponed request meets one fate, decided by recovery, the window or the
  end: completed with its own action, rejected or bypassed, or dropped. With the kill switch on nothing
  is bypassed but what asks for it. Every recovery attempt is within the limit and waits no longer than its interval, intervals
  back off by the rate, and a session that waits for its recovery has an attempt scheduled or is about
  to give up. The attempts counter wraps around exactly when an endpoint is abandoned, without a fatal
  error, during the last attempt; two steps lead there.
- **Connectors.** One result per connect, an error exactly when both failed, nothing after a
  disconnect, and always something under way until then.
- **Exclusions.** A lookup finds the longest entry that covers a name; order, repetition and letter
  case of entries do not matter; a `^` entry for a name wins over any other list contents.

## Where code and documentation differ

The model follows the code.

- `core/src/dns_client.cpp:184-185` asserts that nothing is in flight when connecting fails; requests
  sent over UDP may be. The model carries on as a build without assertions does. Line 269 asserts
  more than two bytes, line 372 accepts two.
- `core/src/vpn_fsm.cpp:68` passes a network state to an action that reads an error. In the model that
  action sees an arbitrary error code there.
- `core/src/memfile_buffer.cpp:261-301` drops what does not fit in the file without reporting it, as
  long as a part fits.
- `core/src/http3_upstream.cpp:347-351` closes a connection at once and then also queues its close, so
  its close is reported twice.
- `core/src/memfile_buffer.cpp:209-216` leaves the file closed when the first rename fails; `size` then
  asserts that nothing of the file had been read.
- `core/src/memfile_buffer.cpp:251-256` removes the temporary file even if it could not be renamed back,
  and with it the unread bytes.
- `core/src/dns_client.cpp:135` leaves the deadline of an answered request to the timer, which looks
  requests up by id only.
- The table of `core/src/vpn_fsm.cpp:46-108` is grouped by event here, rows in their order.

## Model

| member | source | states |
|---|---|---|
| `EventLoop.EverySchedule` | common/src/event_loop.cpp:214-386 | in every interleaving each issued task is in exactly one queue, in flight, awaiting its finalizer or finalized, its history is lawful (runs at most once, before its one finalize, never after a cancel), and a non-empty queue has exactly one run callback coming |
| `EventLoop.InvKept` | common/src/event_loop.cpp:516-591 | every critical section and every callback keeps the invariant behind that |
| `EventLoop.AwakeKept` | common/src/event_loop.cpp:247-279 | no step loses a wakeup: the flag says exactly whether a run callback is registered, being registered or running |
| `EventLoop.PassIsBounded` | common/src/event_loop.cpp:516-557 | a pass runs at most 64 tasks, all of which were queued when it began |
| `EventLoop.OrderedKept` | common/src/event_loop.cpp:516-557 | queue ids and the order of actions stay strictly increasing |
| `EventLoop.ExitFinalizesEverything` | common/src/event_loop.cpp:214-245 | after an exit every task is finalized unless a client call on it is still under way |
| `EventLoop.CancelIsFinal` | common/src/event_loop.cpp:353-386 | whatever happens after a successful cancel, the action does not run |
| `EventLoop.HistoryGrows` | common/src/event_loop.cpp:516-591 | what has been observed of a task is never taken back |
| `EventLoop.EventLoop.Submit` | common/src/event_loop.cpp:247-279 | appends a new id, and says whether a run callback has to be registered |
| `EventLoop.EventLoop.Schedule` | common/src/event_loop.cpp:281-312 | appends to the deferred queue, or hands the task back for finalizing after an exit |
| `EventLoop.EventLoop.Cancel` | common/src/event_loop.cpp:353-386 | removes a task from whichever queue holds it, and only then reports success |
| `EventLoop.EventLoop.FinalizeExit` | common/src/event_loop.cpp:214-245 | empties both queues and finalizes all that was in them |
| `EventLoop.EventLoop.NextTask` | common/src/event_loop.cpp:533-548 | takes the front of the queue, or ends the pass at a newer task or at the budget |
| `EventLoop.EventLoop.TakeDeferred` | common/src/event_loop.cpp:559-591 | takes a deferred task unless it was cancelled in between |
| `EventLoop.EventLoop.RunTaskQueue` | common/src/event_loop.cpp:516-557 | a whole pass on an undisturbed loop is a schedule of the steps above; it runs and finalizes a prefix of the queue, in order, within the budget, and re-registers exactly if tasks are left |
| `TunnelTables.EveryRunIsSafe` | core/src/tunnel.cpp:56-152 | in every run both tables lead to live connections under their own id, looking a connection up by its ids finds nobody else, and no two live connections share an id |
| `TunnelTables.DeleteIsExact` | core/src/tunnel.cpp:105-152 | deleting a connection leaves no entry for it and keeps every other connection and its entries |
| `TunnelTables.FindIsOwner` | core/src/tunnel.cpp:105-115 | a lookup by a connection's own ids finds that connection, if it finds any |
| `TunnelTables.BindKeeps` | core/src/tunnel.cpp:1364-1389 | binding a new upstream id keeps the tables sound if and only if no entry under an older one is left |
| `TunnelTables.SecondCompletionBreaks` | core/src/tunnel.cpp:1301-1389 | a run that connects a request, after which completing it a second time breaks the tables |
| `TunnelTables.Destroy` | core/src/tunnel.cpp:105-152 | keeps the invariant; follows only live entries |
| `TunnelTables.ClientClosed` | core/src/tunnel.cpp:1649-1678 | keeps the invariant in all three ways of closing |
| `TunnelTables.CloseClient` | core/src/tunnel.cpp:168-265 | keeps the invariant, also when the listener raises its close event from inside the call |
| `TunnelTables.ConnectRequest` | core/src/tunnel.cpp:1557-1617 | keeps the invariant |
| `TunnelTables.Complete` | core/src/tunnel.cpp:1301-1389 | keeps the invariant for a request without an upstream id |
| `TunnelTables.Resolved` | core/src/tunnel.cpp:1128-1217 | keeps the invariant for any state the connection got into meanwhile |
| `TunnelTables.Accepted` | core/src/tunnel.cpp:1618-1648 | keeps the invariant |
| `TunnelTables.Migrate` | core/src/tunnel.cpp:953-1008 | keeps the invariant, also when the listener is gone |
| `TunnelTables.ServerClosed` | core/src/tunnel.cpp:662-683 | keeps the invariant |
| `TunnelTables.ServerError` | core/src/tunnel.cpp:815-871 | keeps the invariant |
| `TunnelTables.ServerOpened` | core/src/tunnel.cpp:575-661 | keeps the invariant, including the swap of ids and the close raised from inside it |
| `TunnelTables.SwapKeeps` | core/src/tunnel.cpp:614-646 | the id swap keeps the invariant, and source and twin are distinct |
| `TunnelTables.SwitchIsExact` | core/src/tunnel.cpp:614-646 | after a switch the client's id leads to the twin, which is live and connected; the source is gone exactly if its upstream closed it at once and it had an upstream entry, and otherwise keeps that entry only; nobody else changed |
| `TunnelTables.SwitchClosesLater` | core/src/tunnel.cpp:614-683 | an upstream that closes the source later, whatever the listener does by then, leads to the same tables as one that closes it at once |
| `TunnelTables.ClosingDeletes` | core/src/tunnel.cpp:662-683 | a connection both of whose sides close is deleted, and it alone, in whichever order |
| `TunnelTables.MigrationSwitches` | core/src/tunnel.cpp:953-1008 | starting and completing a migration replaces the connection under the client's id and deletes the old one with its entry |
| `TunnelTables.HandshakeConnects` | core/src/tunnel.cpp:1301-1389 | request, completion, opening and acceptance leave one connected connection under both ids |
| `TunnelTables.NoLeakExactly` | core/src/tunnel.cpp:614-683 | every event keeps every live connection findable, if and only if it is not a switch whose source has lost its upstream entry |
| `TunnelTables.LeakIsReachable` | core/src/tunnel.cpp:614-646 | a run that reaches that switch |
| `TunnelTables.Tunnel.DestroyConnection` | core/src/tunnel.cpp:105-152 | the table update in place is `Destroy` |
| `TunnelTables.Tunnel.CloseClientSideConnection` | core/src/tunnel.cpp:215-265 | in place, `CloseClient` |
| `TunnelTables.Tunnel.OnClientClosed` | core/src/tunnel.cpp:1649-1678 | in place, `ClientClosed` |
| `TunnelTables.Tunnel.OnServerClosed` | core/src/tunnel.cpp:662-683 | in place, `ServerClosed` |
| `TunnelTables.Tunnel.OnServerError` | core/src/tunnel.cpp:815-871 | in place, `ServerError` |
| `TunnelTables.Tunnel.OnServerOpened` | core/src/tunnel.cpp:575-661 | in place, `ServerOpened` |
| `TunnelTables.Tunnel.CompleteConnectRequest` | core/src/tunnel.cpp:1301-1389 | in place, `Complete` |
| `TunnelTables.Tunnel.OnResolved` | core/src/tunnel.cpp:1128-1217 | in place, `Resolved` |
| `TunnelTables.Tunnel.InitiateMigration` | core/src/tunnel.cpp:953-1008 | in place, `Migrate` with a new object as the twin |
| `TunnelTables.Tunnel.Deinit` | core/src/tunnel.cpp:2045-2060 | both tables end up empty, and nothing stays alive unless it had leaked before |
| `TunnelBytes.Run` | core/src/tunnel.cpp:1679-1838 | for any events in any order, from any routing to the fake upstream: what was sent, then what is waiting, is what was taken, if and only if no twin failed or nothing was taken; a twin that fails takes everything with it, nothing having been sent; and no send reaches the fake upstream |
| `TunnelBytes.TwinTakesPackets` | core/src/tunnel.cpp:815-871 | a packet kept for the lookup, a read that migrates and a twin that fails: what was taken is neither sent nor waiting |
| `TunnelBytes.GivingUpLeavesFake` | core/src/tunnel.cpp:917-945 | a connection that gives up on its lookup is routed to the fake upstream again if and only if early acknowledgement is on |
| `TunnelBytes.LookupLeavesFake` | core/src/tunnel.cpp:917-945 | after a finished lookup no action routes to the fake upstream |
| `TunnelBytes.Connection.Migrate` | core/src/tunnel.cpp:1739-1788 | starts a migration to the upstream selected now, or closes; it succeeds exactly if there is such an upstream and it opens a connection |
| `TunnelBytes.SendAllConserves` | core/src/tunnel.cpp:437-464 | sending buffered packets loses, doubles and reorders nothing, and stops early only when the upstream does |
| `TunnelBytes.Connection.SendBufferedData` | core/src/tunnel.cpp:414-471 | sends from the front, keeps the rest of a packet taken in part, and turns reads off after a zero |
| `TunnelBytes.Connection.OnRead` | core/src/tunnel.cpp:1679-1838 | a read is buffered while the lookup wants more, at most three times; on the fake upstream it is not taken, and the connection migrates exactly if an upstream is selected and opens, and is closed otherwise; elsewhere a lookup that decides otherwise turns reads off, and what is buffered goes first |
| `TunnelBytes.Connection.ForwardRead` | core/src/tunnel.cpp:1794-1825 | the number of bytes taken is what the upstream's answers say, after all that was buffered |
| `TunnelBytes.Connection.InitiateMigration` | core/src/tunnel.cpp:953-1008 | nothing of the packet is taken, buffered packets go to the twin and reads are off; without an upstream or a connection on it nothing changes |
| `TunnelBytes.Connection.OnTwinOpened` | core/src/tunnel.cpp:614-646 | the twin takes over with its upstream and its packets; reads go on exactly if there are none |
| `TunnelBytes.Connection.OnDataSent` | core/src/tunnel.cpp:757-803 | reads follow the upstream, and buffered packets are scheduled |
| `ReceivePath.RunHttp3` | core/src/http3_upstream.cpp:341-368 | for any events, closes by the client and polls included: delivered followed by unread is received, credit plus unread is received, unread fits in a window, a remote close is raised only with nothing unread; an open connection has raised nothing, a closed one exactly one event, or two if it was closed without waiting and the submitted close has run |
| `ReceivePath.ReportedTwice` | core/src/http3_upstream.cpp:341-368 | the client closes without waiting and the submitted task runs: the close is raised twice |
| `ReceivePath.EndsExactly` | core/src/http3_upstream.cpp:1091-1116 | the read-out loop ends if and only if there is no turn from which on, with data pending, the tunnel only gives idle answers |
| `ReceivePath.IdleTurn` | core/src/http3_upstream.cpp:1091-1116 | a turn changes nothing if and only if its answer is idle; any other ends the loop or leaves less unread |
| `ReceivePath.RunHttp2` | core/src/http2_upstream.cpp:148-283 | until the client closes and unless the buffer overflowed, delivered followed by unread is received and unread fits in a window; the buffer does not overflow if it holds a window or all that was received; a closed connection has raised exactly one event, a remote close with unread data only after the client closed |
| `ReceivePath.SmallBufferLoses` | core/src/http3_upstream.cpp:1074-1089 | a peer that sends a whole window while reads are off loses exactly what exceeds the buffer |
| `ReceivePath.Http3Stream.OnBody` | core/src/http3_upstream.cpp:708-754 | delivers what the tunnel takes if nothing is unread, and buffers what fits of the rest |
| `ReceivePath.Http3Stream.ReadOutPendingData` | core/src/http3_upstream.cpp:1091-1116 | for any finite list of answers, after which the tunnel turns reads off: ends with an error, reads off or nothing unread, conserving all bytes and credit, and delivers something if the tunnel takes something |
| `ReceivePath.Http3Stream.DeliverChunk` | core/src/http3_upstream.cpp:1091-1116 | one turn of the loop is `Turn`; reads are left as the answer says |
| `ReceivePath.Http3Stream.Poll` | core/src/http3_upstream.cpp:1124-1132 | reads out what is pending exactly if reads are on and the stream is open |
| `ReceivePath.Http3Stream.CloseConnection` | core/src/http3_upstream.cpp:341-368 | raises the close at once unless it is to wait, and submits it in either case |
| `ReceivePath.Http3Stream.RunCloseTask` | core/src/http3_upstream.cpp:352-366 | raises the close of a connection that is still listed, even if it is gone |
| `ReceivePath.Http3Stream.ProcessPendingData` | core/src/http3_upstream.cpp:952-967 | a postponed close is raised as soon as everything is delivered |
| `ReceivePath.Http3Stream.OnStreamClosed` | core/src/http3_upstream.cpp:757-794 | raises an error, a close with nothing unread, or postpones |
| `ReceivePath.Http3Stream.UpdateFlowControl` | core/src/http3_upstream.cpp:421-446 | turning reads on with unread data submits the read-out |
| `ReceivePath.Http2Stream.HandleRead` | core/src/http2_upstream.cpp:63-72 | delivers what the answer takes and leaves reads as it says; a negative answer closes |
| `ReceivePath.Http2Stream.ReadOutPendingData` | core/src/http2_upstream.cpp:128-146 | for any finite list of answers, after which the tunnel turns reads off: ends with an error, reads off or nothing unread, and delivers something if the tunnel takes something |
| `ReceivePath.Http2Stream.Consume` | core/src/http2_upstream.cpp:749-772 | credit is returned for bytes that were delivered, which keeps unread data within a window |
| `ReceivePath.Http2Stream.CloseConnection` | core/src/http2_upstream.cpp:669-707 | without waiting, resets an open stream or reports a closed one; otherwise submits that |
| `ReceivePath.Http2Stream.OnData` | core/src/http2_upstream.cpp:160-223 | pending data first, then new data, the rest to the buffer; overflow only beyond the capacity |
| `ReceivePath.Http2Stream.OnStreamProcessed` | core/src/http2_upstream.cpp:229-280 | raises an error, a close, or postpones while data is unread |
| `ReceivePath.Http2Stream.CompleteRead` | core/src/http2_upstream.cpp:806-824 | a postponed close is raised as soon as everything is delivered |
| `ReceivePath.Http2Stream.CloseTcpConnection` | core/src/http2_upstream.cpp:643-667 | an open stream is reset and kept, a closed one is cleaned up |
| `SpillStore.ConservesExactly` | core/src/memfile_buffer.cpp:41-59 | in any run of pushes with any faults, peeks and drains: what was read followed by what is held is what was accepted, at every moment and whatever the bytes are, if and only if every push of something finds memory full or nothing unread in the file, and does not lose the file |
| `SpillStore.SameFate` | core/src/memfile_buffer.cpp:41-59 | runs that differ in their bytes only go the same way |
| `SpillStore.FineRuns` | core/src/memfile_buffer.cpp:41-59 | such a run conserves at every moment and at its end |
| `SpillStore.InOrderExactly` | core/src/memfile_buffer.cpp:117-156 | whatever is pushed, and whatever fails short of losing the file, lands behind everything else, if and only if memory is full or nothing is unread in the file |
| `SpillStore.PushExactly` | core/src/memfile_buffer.cpp:41-44 | in any state and with any faults memory is filled first, the accepted rest goes behind what is unread in the file, an error accepts no more than memory took, and only a push that loses the file takes something away |
| `SpillStore.StripLosesExactly` | core/src/memfile_buffer.cpp:199-259 | a strip changes the contents if and only if something is unread, the new file could not be completed and the old one could not be renamed back |
| `SpillStore.DrainOrders` | core/src/memfile_buffer.cpp:56-59 | reading takes a buffer out of order if and only if something is unread in its file and the file is closed |
| `SpillStore.PushOrders` | core/src/memfile_buffer.cpp:41-44 | a push does not take a buffer out of order |
| `SpillStore.MildRuns` | core/src/memfile_buffer.cpp:41-59 | a run in which no strip fails in renaming or reopening the file keeps order and loses nothing |
| `SpillStore.FaultlessPush` | core/src/memfile_buffer.cpp:41-44 | without faults exactly as much as the capacity allows is accepted, and an error means that the file could not take a single byte |
| `SpillStore.NothingRefused` | core/src/memfile_buffer.cpp:41-44 | in a run without faults whose pushes all fit at once, everything is accepted |
| `SpillStore.LosesFile` | core/src/memfile_buffer.cpp:244-256 | a push that loses a byte: the new file cannot be created and the old one cannot be renamed back |
| `MemfileBuffer.Replay` | core/src/memfile_buffer.cpp:32-59 | the buffer in place, through any such run, ends as the run on values does; it keeps order if the run is fine, and a peek shows something whenever there is something, unless a strip failed in renaming or reopening |
| `MemfileBuffer.LostHandleReorders` | core/src/memfile_buffer.cpp:199-216 | pushes, a drain and a peek after a strip that failed in its first rename: byte 5 is read before byte 2, which was pushed earlier |
| `MemfileBuffer.MemfileBuffer.Push` | core/src/memfile_buffer.cpp:41-44 | in place, in any state and with any faults, `SpillStore.Push` |
| `MemfileBuffer.MemfileBuffer.PushAll` | core/src/memfile_buffer.cpp:41-44 | on a buffer whose file can be read and without faults: appends exactly what the capacity allows |
| `MemfileBuffer.MemfileBuffer.Peek` | core/src/memfile_buffer.cpp:51-54 | in any state: memory is refilled from an open file, and its front chunk shown, or an error on a file shorter than what was read of it |
| `MemfileBuffer.MemfileBuffer.Front` | core/src/memfile_buffer.cpp:51-54 | on a buffer whose file can be read: a prefix of the contents, non-empty when there are any, and changes nothing |
| `MemfileBuffer.MemfileBuffer.Drain` | core/src/memfile_buffer.cpp:56-59 | in any state: removes a prefix of memory, of any length, and refills it from an open file |
| `MemfileBuffer.MemfileBuffer.Advance` | core/src/memfile_buffer.cpp:56-59 | on a buffer whose file can be read: removes a prefix of the contents |
| `MemfileBuffer.MemfileBuffer.TransferFile2Mem` | core/src/memfile_buffer.cpp:65-115 | moves what memory has room for, or fails and changes nothing |
| `MemfileBuffer.MemfileBuffer.TransferMem2Mem` | core/src/memfile_buffer.cpp:138-156 | keeps what fits in memory and returns the rest |
| `MemfileBuffer.MemfileBuffer.StripFile` | core/src/memfile_buffer.cpp:199-259 | its steps, each of which may fail, come to one of five outcomes: stripped, refused, closed, put back or lost |
| `MemfileBuffer.Replace` | core/src/memfile_buffer.cpp:209-258 | renaming, rebuilding, rolling back and removing leave under the file's name the unread part, the old file, or what the steps that failed let be |
| `MemfileBuffer.Rebuild` | core/src/memfile_buffer.cpp:218-242 | the new file holds what is unread in the old one, or what had been copied when a step failed |
| `MemfileBuffer.Rollback` | core/src/memfile_buffer.cpp:246-255 | the old file is back under its name, unless renaming it fails |
| `MemfileBuffer.MemfileBuffer.Size` | core/src/memfile_buffer.cpp:32-39 | the length of the contents, not counting a closed file |
| `MemfileBuffer.MemfileBuffer.WriteInFile` | core/src/memfile_buffer.cpp:261-301 | opens, strips and appends as far as nothing fails and the file has room |
| `MemoryBuffer.MemoryBuffer.Drain` | core/src/memory_buffer.cpp:41-58 | removes exactly the given number of bytes across chunks |
| `UdpWire.IpRoundTrip` | core/include/vpn/internal/wire_utils.h:63-164 | the padded form of an address is read back if and only if it is not one of the ambiguous ones |
| `UdpWire.PrefixRoundTrip` | core/src/http_udp_multiplexer.cpp:240-279 | length and both endpoints of a packet prefix are read back |
| `UdpWire.ComposeRoundTrip` | core/src/http_udp_multiplexer.cpp:32-52 | the length field spans the packet, and the payload is where the format puts it if and only if the application name has at most 255 bytes |
| `UdpMux.ByteRunConcat` | core/src/http_udp_multiplexer.cpp:281-367 | receiving A and then B is receiving A followed by B |
| `UdpMux.HttpUdpMultiplexer.ProcessReadEvent` | core/src/http_udp_multiplexer.cpp:281-367 | the chunk loop does what byte by byte receiving does |
| `UdpMux.ReadLoop` | core/src/http_udp_multiplexer.cpp:281-367 | the loop terminates and its events and final state are those of the bytes |
| `UdpMux.ExactDelivery` | core/src/http_udp_multiplexer.cpp:281-367 | with fixed tables exactly the packets for indexed, reading connections are delivered, whole and in order |
| `UdpMux.Aligned` | core/src/http_udp_multiplexer.cpp:304-413 | with the stream cut and interleaved with table operations in any way, only whole packets are delivered, in order and to their address, and the receiver ends at a packet boundary |
| `UdpMux.AlwaysGood` | core/src/http_udp_multiplexer.cpp:61-112 | in every schedule the index leads to live connections with that address and the payload state names a live connection |
| `UdpMux.IndexedIsLive` | core/src/http_udp_multiplexer.cpp:304-330 | an indexed id is in the connection table, so the branch for a missing one is dead |
| `UdpMux.CloseKeepsComplete` | core/src/http_udp_multiplexer.cpp:399-413 | closing keeps the other connections reachable if and only if none shares the address pair |
| `UdpMux.SharedPairLost` | core/src/http_udp_multiplexer.cpp:399-413 | two connections opened on one address pair, and the first closed: the second stays open and is not in the index |
| `UdpMux.CompleteKept` | core/src/http_udp_multiplexer.cpp:114-168 | with distinct address pairs every opened connection stays reachable |
| `UdpMux.HttpUdpMultiplexer.OpenConnection` | core/src/http_udp_multiplexer.cpp:114-168 | adds the connection, requesting a stream for the first one; refuses a known id, and fails without change if the stream is refused |
| `UdpMux.HttpUdpMultiplexer.CleanConnectionData` | core/src/http_udp_multiplexer.cpp:399-413 | removes the connection and the index entry of its address, and forgets it as the receiver |
| `DnsFraming.ParseSplits` | core/src/dns_handler.cpp:199-214 | parsing does not depend on chunking |
| `DnsFraming.RoundTripExact` | core/src/dns_handler.cpp:44-49 | messages written to a stream are read back exactly if and only if none is longer than 65535 bytes |
| `DnsFraming.HandlerDecoder.Receive` | core/src/dns_handler.cpp:199-214 | yields the complete messages and keeps the incomplete one |
| `DnsFraming.ClientDecoder.Receive` | core/src/dns_client.cpp:110-151 | recognises the same frames, with the length kept apart from the bytes |
| `DnsFraming.Deliver` | core/src/dns_client.cpp:110-151 | both decoders yield the same messages for any chunking |
| `DnsFraming.Transmit` | core/src/dns_handler.cpp:433-448 | any messages, in any chunks, come out of both decoders in order with nothing left |
| `DnsFraming.ReconnectIsClean` | core/src/dns_client.cpp:88-108 | bytes kept across a reconnect leave every new stream readable if and only if there are none |
| `DnsClient.OneResponse` | core/src/dns_client.cpp:88-402 | in every run each id has as many responses as acceptances, but for the one in flight or deferred, and each answer carries the request's own transaction id |
| `DnsClient.TrackMeans` | core/src/dns_client.cpp:88-402 | a lawful log answers each accepted request exactly once, except those outstanding |
| `DnsClient.TrackPrefix` | core/src/dns_client.cpp:88-402 | the law holds at every moment, so an id is answered before it is used again |
| `DnsClient.ReplyIsWireReply` | core/src/dns_client.cpp:125-140 | a delivered reply is the wire reply with the request's transaction id in its first two bytes |
| `DnsClient.InFlightWasWritten` | core/src/dns_client.cpp:252-311 | in every run a request in flight has been written to a socket under its id |
| `DnsClient.NobodyForgotten` | core/src/dns_client.cpp:369-402 | in every run a waiting request has the timer pending and due no later than its deadline |
| `DnsClient.TimerAnswers` | core/src/dns_client.cpp:205-250 | when the timer fires, no request past its deadline is left unanswered |
| `DnsTimeouts.TimeoutFailsExactly` | core/src/dns_client.cpp:205-232 | a timeout fails a deferred request exactly when its own deadline has passed, and one in flight exactly when some entry for its id has |
| `DnsTimeouts.TimelyExactly` | core/src/dns_client.cpp:205-222 | no timeout fails a request in flight before its deadline, if and only if no older entry for its id is left |
| `DnsTimeouts.EarlyFailureIsReachable` | core/src/dns_client.cpp:369-385 | a run in which the ids come round and a request is failed before its deadline |
| `DnsClient.NextKeeps` | core/src/dns_client.cpp:88-402 | every event keeps the tables disjoint and in step with the log, the deadlines and the timer |
| `DnsClient.DeferredGoInOrder` | core/src/dns_client.cpp:252-266 | deferred requests go out earliest deadline first, until room or requests run out |
| `DnsClient.TcpCarries` | core/src/dns_client.cpp:268-300 | a request written to TCP is read back as one message with our id if and only if its length fits 16 bits |
| `DnsClient.UdpCarries` | core/src/dns_client.cpp:295-305 | a datagram carries our id and the body, cut at 4096 bytes |
| `DnsClient.DnsClient.Send` | core/src/dns_client.cpp:369-402 | refuses short requests and ids in use; otherwise the request is in flight or deferred with its deadline and the timer runs |
| `DnsClient.DnsClient.SendRequest` | core/src/dns_client.cpp:268-311 | what is written, when it is refused and when a connection is started |
| `DnsClient.DnsClient.OnTcpData` | core/src/dns_client.cpp:110-151 | every complete frame is answered in order |
| `DnsClient.DnsClient.OnTcpClosed` | core/src/dns_client.cpp:88-108 | fails each request in flight once, in some order, and reconnects for deferred ones |
| `DnsClient.DnsClient.OnUdpRead` | core/src/dns_client.cpp:154-171 | restores the original id, or ignores a response nobody waits for |
| `DnsClient.DnsClient.OnConnectFailed` | core/src/dns_client.cpp:177-194 | fails all deferred requests |
| `DnsClient.DnsClient.SendDeferredRequests` | core/src/dns_client.cpp:252-266 | sends deferred requests until the socket blocks |
| `DnsClient.DnsClient.OnTimer` | core/src/dns_client.cpp:205-250 | fails what is overdue and rearms for the earliest deadline |
| `Fsm.FirstAt` | common/src/fsm.cpp:51-79 | the row taken fits, and no earlier row does |
| `Fsm.FirstIs` | common/src/fsm.cpp:51-79 | the first row that fits is the one taken |
| `Fsm.FirstIsNone` | common/src/fsm.cpp:51-79 | an event is ignored exactly when no row fits |
| `Fsm.Select` | common/src/fsm.cpp:51-66 | the table loop finds that row |
| `VpnFsm.PostponedOnce` | core/src/vpn_fsm.cpp:560-591 | in every run each postponed request has met one fate, in order, or waits while the window timer runs |
| `VpnFsm.FatesFit` | core/src/vpn_fsm.cpp:414-426 | requests are completed, each with its own action, when recovery succeeds, rejected or bypassed when the window ends, dropped at stop, and decided at no other step |
| `VpnFsm.KillSwitchHolds` | core/src/vpn_fsm.cpp:104-107 | in every run with the kill switch on, no request is bypassed for want of a session |
| `VpnFsm.RequestRow` | core/src/vpn_fsm.cpp:104-107 | a request is completed, else postponed, else rejected, else bypassed |
| `VpnFsm.RecoveryIsBounded` | core/src/vpn_fsm.cpp:117-170 | in every run the attempts since a reset are within the limit, each waits no longer than the interval it was scheduled under, and an interval is the initial one when recovery (re)starts and otherwise the one before it times the rate, rounded, and no smaller |
| `VpnFsm.NeverStalls` | core/src/vpn_fsm.cpp:117-170 | in every run a session that waits for its recovery has an attempt scheduled, or the submitted task that gives up |
| `VpnFsm.RoundGrows` | core/src/vpn_fsm.cpp:160-161 | with a rate of at least one the rounded interval is no smaller |
| `VpnFsm.WrapsExactly` | core/src/vpn_fsm.cpp:53-69 | the attempts counter wraps around if and only if an endpoint is abandoned, without a fatal error, while the last attempt is connecting |
| `VpnFsm.WrapIsReachable` | core/src/vpn_fsm.cpp:53-69 | connecting with one attempt and abandoning the endpoint leaves the largest number of attempts |
| `VpnFsm.AttemptsAreBounded` | core/src/vpn_manager.cpp:311-336 | in every other run retries and attempts left add up, so retries stay below the attempts allowed |
| `VpnFsm.NextKeeps` | core/src/vpn_fsm.cpp:46-108 | every step of the manager keeps the invariant |
| `VpnFsm.ActKeeps` | core/src/vpn_fsm.cpp:286-436 | every action keeps it |
| `VpnFsm.Reschedule` | core/src/vpn_fsm.cpp:128-169 | the arithmetic of scheduling an attempt |
| `VpnFsm.Session.PerformTransition` | common/src/fsm.cpp:38-82 | performs the row's action, moves and raises the state, and refuses events raised from inside an action |
| `VpnFsm.Session.Initiate` | core/src/vpn_fsm.cpp:117-170 | in place, one more scheduled attempt, or a task that gives up once they are used up |
| `VpnFsm.Session.CompletePostponedRequests` | core/src/vpn_manager.cpp:212-219 | completes every postponed request with its own action, in order, and clears the list |
| `VpnFsm.Session.OnWindowExpires` | core/src/vpn_fsm.cpp:575-591 | rejects or bypasses every postponed request and clears the timer |
| `VpnFsm.Session.FinalizeRecoveryAction` | core/src/vpn_fsm.cpp:414-426 | resets recovery, timer, postponed and bypassed lists |
| `VpnFsm.Session.CompleteConnectAction` | core/src/vpn_fsm.cpp:337-357 | the error left behind by a finished connect |
| `Connectors.Run` | core/src/fallbackable_upstream_connector.cpp:94-193 | for any interleaving: at most one result, an error if and only if both failed, the fallback started at most once, nothing raised after a disconnect, and otherwise a result or something under way |
| `Connectors.ReportsOnce` | core/src/single_upstream_connector.cpp:173-187 | a connector reports exactly when it becomes disconnected other than by request, and reports an open session only while connecting |
| `Connectors.RowIs` | core/src/single_upstream_connector.cpp:173-187 | which row of the table each event takes in each state |
| `Connectors.FallbackTimeout` | core/src/fallbackable_upstream_connector.cpp:163-179 | lies between a tenth of the connect timeout and the whole of it |
| `Connectors.SingleConnector.Connect` | core/src/single_upstream_connector.cpp:198-220 | starts connecting, or fails without a report |
| `Connectors.SingleConnector.OnEvent` | core/src/single_upstream_connector.cpp:58-99 | reports exactly when the connector becomes disconnected |
| `Connectors.FallbackableConnector.constructor` | core/src/fallbackable_upstream_connector.cpp:30-50 | after connecting, the main connector or the fallback's turn is pending |
| `Connectors.FallbackableConnector.HandleConnectResult` | core/src/fallbackable_upstream_connector.cpp:94-139 | raises the first success or the second failure |
| `Connectors.FallbackableConnector.RunDelayTask` | core/src/fallbackable_upstream_connector.cpp:163-179 | starts the fallback for the first and only time, with a timeout in bounds |
| `Connectors.FallbackableConnector.DisconnectAll` | core/src/fallbackable_upstream_connector.cpp:52-63 | leaves nothing that could raise a result |
| `DomainFilter.LookupIsLongest` | core/src/domain_filter.cpp:180-206 | the lookup returns the length of the longest entry that covers the name under the declarative rule, or nothing if none does |
| `DomainFilter.MatchedDomainLength` | core/src/domain_filter.cpp:180-206 | the shrinking loop computes that lookup |
| `DomainFilter.BestIsLongest` | core/src/domain_filter.cpp:180-206 | the same, in terms of the entries of the list |
| `DomainFilter.VerdictByList` | core/src/domain_filter.cpp:208-232 | user entries first, the longer winning and `^` winning ties; then the `!` group; then plain entries |
| `DomainFilter.VerdictByAddress` | core/src/domain_filter.cpp:234-292 | without a known name, `^` entries come first, `+` entries shield from the `!` group, and an excluded address is only a suspect while a name could still restore the default route |
| `DomainFilter.CaseIsIgnored` | core/src/domain_filter.cpp:63-178 | lists that differ in the case of letters only make the same filter, nested lists included, if the address, range and port parsers ignore case |
| `DomainFilter.OrderIsIgnored` | core/src/domain_filter.cpp:102-178 | lists with the same entries, in any order and repetition, make the same filter |
| `DomainFilter.LinesRoundTrip` | core/src/domain_filter.cpp:116-128 | entries written to a nested list are read back |
| `DomainFilter.NestedIsFlat` | core/src/domain_filter.cpp:164-175 | a nested filter holds no further filters |
| `DomainFilter.NestedIsTwoValued` | core/src/domain_filter.cpp:218-292 | nested matching says "excluded" or "default" and nothing else |
| `DomainFilter.ExactDefaultWins` | core/src/domain_filter.cpp:208-292 | a `^` entry for a name gives the default route, by name and by any address the name is cached for, whatever else is listed |
| `DomainFilter.ReadList` | core/src/domain_filter.cpp:148-162 | the character loop adds every word of the list once |
| `DomainFilter.UpdateExclusions` | core/src/domain_filter.cpp:102-178 | builds the filter of the list, nested lists included |
| `PortRanges.PortRangeSet.constructor` | core/src/utils.cpp:16-28 | the merged ranges are sorted, disjoint and not adjacent, and hold the ports of the given ranges |
| `PortRanges.PortRangeSet.Contains` | core/src/utils.cpp:30-37 | the binary search answers membership |
| `PortRanges.Query` | core/src/utils.cpp:16-37 | for every list and port the set answers as the list would |
| `PortRanges.CanonicalIsUnique` | core/src/utils.cpp:16-28 | there is one such form for a set of ports |

## Left out

- Sockets, libevent, nghttp2, ngtcp2, TLS, the pinger, name extraction and the DNS proxy: foreign code, represented by the events it raises and the results it returns.
- `UpstreamMultiplexer`, `VpnDnsResolver`, `IcmpManager`, `HttpIcmpMultiplexer`, `ConnectionStatisticsMonitor`, `DirectUpstream`: their claims are easier or repeat the ones above.
- The user interface and build scripts.
- UDP packets with out-of-range length fields: alignment is not promised for them; the packets of the alignment results are well-formed.
- Early acknowledgement, UDP connections through a migration and QUIC blocking in the tunnel: the byte results are about TCP with early acknowledgement off.
- Callbacks that call back into `send` of the DNS client.
- Event loop tasks without a finalizer.
- `MemfileBuffer::push` of a vector, and short reads and writes of the buffer file.
- A tunnel that never stops giving idle answers: the read-out methods take a finite list of answers, and `ReceivePath.EndsExactly` says what an endless one does.
- Closing a connection that an upstream has already reported closed: the tunnel has forgotten its id by then.
- The creation of the unread buffer: it exists from the start, so a failure to set it up is not modelled.
- Floating point: the back-off rate is a real number, so the rounding of very long intervals in single precision is not modelled.
- Several connections of one HTTP/3 upstream share one read-out callback; the model has one connection with a callback of its own.
- `DomainFilter.UpdateExclusions`: the filter is a value that is built anew, so the update of the tables in place is not captured; it takes the address, range and port parsers to refuse the empty word and words that begin with `!`, `+` or `^`.
- `Connectors.Run`: a connector is connected once; connecting it again after a disconnect is not modelled.
- `UdpMux.Aligned`: a reset of the whole multiplexer ends the stream, so it is not among the operations.
- `DnsFraming.Transmit`: is about one connection; `DnsFraming.ReconnectIsClean` says what a reconnect adds.
