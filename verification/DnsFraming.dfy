/**
 * DNS over TCP framing (section 4.2.2 of RFC 1035): each message is prefixed with its length in
 * two bytes, high byte first. Two decoders read it: the DNS handler keeps an incomplete length in
 * its byte buffer, the DNS client keeps a parsed length beside its buffer.
 */
module DnsFraming {
  import opened Prelude

  const MAX_MESSAGE: nat := 65535

  /** `write_dns_message_to`: the length is truncated to 16 bits, and the body with it. */
  function Encode(message: seq<byte>): seq<byte> {
    var size := |message| % 0x1_0000;
    PutU16(size) + message[..size]
  }

  function EncodeAll(messages: seq<seq<byte>>): seq<byte> {
    if messages == [] then [] else Encode(messages[0]) + EncodeAll(messages[1..])
  }

  /** What a stream of framed bytes means: the complete messages in it, and the incomplete tail. */
  datatype Parsed = Parsed(messages: seq<seq<byte>>, tail: seq<byte>)

  predicate HasFrame(stream: seq<byte>) {
    |stream| >= 2 && |stream| >= 2 + GetU16(stream)
  }

  function Parse(stream: seq<byte>): (p: Parsed)
    ensures !HasFrame(p.tail)
    ensures |p.tail| <= |stream|
    decreases |stream|
  {
    if HasFrame(stream) then
      var n := GetU16(stream);
      var rest := Parse(stream[2 + n..]);
      Parsed([stream[2..2 + n]] + rest.messages, rest.tail)
    else Parsed([], stream)
  }

  lemma FrameExtends(a: seq<byte>, b: seq<byte>)
    requires HasFrame(a)
    ensures HasFrame(a + b) && GetU16(a + b) == GetU16(a)
    ensures var n := GetU16(a); (a + b)[2..2 + n] == a[2..2 + n] && (a + b)[2 + n..] == a[2 + n..] + b
  {
  }

  /** Parsing does not depend on chunking: the tail is all a decoder has to remember. */
  lemma {:induction false} ParseSplits(a: seq<byte>, b: seq<byte>)
    ensures Parse(a + b).messages == Parse(a).messages + Parse(Parse(a).tail + b).messages
    ensures Parse(a + b).tail == Parse(Parse(a).tail + b).tail
    decreases |a|
  {
    if HasFrame(a) {
      FrameExtends(a, b);
      var rest := a[2 + GetU16(a)..];
      ParseSplits(rest, b);
      ParseFirst(a);
      ParseFirst(a + b);
      Assoc([a[2..2 + GetU16(a)]], Parse(rest).messages, Parse(Parse(rest).tail + b).messages);
    } else {
      assert [] + Parse(a + b).messages == Parse(a + b).messages;
    }
  }

  lemma ParseFirst(stream: seq<byte>)
    requires HasFrame(stream)
    ensures var n := GetU16(stream); var rest := Parse(stream[2 + n..]);
      Parse(stream) == Parsed([stream[2..2 + n]] + rest.messages, rest.tail)
  {
  }

  /** Encoding then parsing gives the messages back, cut to their 16-bit length. */
  lemma {:induction false} ParseEncoded(messages: seq<seq<byte>>)
    ensures Parse(EncodeAll(messages)).tail == []
    ensures |Parse(EncodeAll(messages)).messages| == |messages|
    ensures forall i | 0 <= i < |messages| ::
              Parse(EncodeAll(messages)).messages[i] == messages[i][..|messages[i]| % 0x1_0000]
  {
    if messages != [] {
      HeadFrame(messages[0], EncodeAll(messages[1..]));
      ParseEncoded(messages[1..]);
    }
  }

  lemma HeadFrame(m: seq<byte>, rest: seq<byte>)
    ensures var stream, size := Encode(m) + rest, |m| % 0x1_0000;
      HasFrame(stream) && GetU16(stream) == size && stream[2..2 + size] == m[..size] && stream[2 + size..] == rest
  {
    var size := |m| % 0x1_0000;
    var stream := Encode(m) + rest;
    assert stream == PutU16(size) + (m[..size] + rest);
    U16RoundTrip(size, m[..size] + rest);
  }

  predicate FitAll(messages: seq<seq<byte>>) {
    forall i | 0 <= i < |messages| :: |messages[i]| <= MAX_MESSAGE
  }

  lemma CutIsWhole(m: seq<byte>)
    ensures m[..|m| % 0x1_0000] == m <==> |m| <= MAX_MESSAGE
  {
  }

  /** The round trip is exact if and only if no message is longer than 65535 bytes. */
  lemma RoundTripExact(messages: seq<seq<byte>>)
    ensures Parse(EncodeAll(messages)) == Parsed(messages, []) <==> FitAll(messages)
  {
    ParseEncoded(messages);
    var parsed := Parse(EncodeAll(messages)).messages;
    forall i | 0 <= i < |messages| ensures parsed[i] == messages[i] <==> |messages[i]| <= MAX_MESSAGE {
      CutIsWhole(messages[i]);
    }
    assert FitAll(messages) ==> parsed == messages;
  }

  /** A stream after which the bytes left over by an earlier one can be noticed. */
  const PROBE: seq<byte> := [0, 1, 7]

  lemma ParseProbe()
    ensures Parse(PROBE).messages == [[7]]
  {
    assert GetU16(PROBE) == 1;
    assert PROBE[2..3] == [7] && PROBE[3..] == [];
  }

  lemma HeldSpoilsProbe(held: seq<byte>)
    requires held != [] && !HasFrame(held)
    ensures Parse(held + PROBE).messages != [[7]]
  {
    var stream := held + PROBE;
    if HasFrame(stream) {
      var n := GetU16(stream);
      assert Parse(stream).messages[0] == stream[2..2 + n];
      if n == 1 && |held| >= 2 {
        assert GetU16(stream) == GetU16(held);
        assert stream[2] == PROBE[0];
      }
    }
  }

  /**
   * A decoder that keeps its leftover across a reconnect reads every new stream correctly if and
   * only if the old stream ended between messages.
   */
  lemma ReconnectIsClean(held: seq<byte>)
    requires !HasFrame(held)
    ensures (forall stream: seq<byte> :: Parse(held + stream).messages == Parse(stream).messages) <==> held == []
  {
    if held == [] {
      assert forall stream: seq<byte> :: held + stream == stream;
    } else {
      ParseProbe();
      HeldSpoilsProbe(held);
    }
  }

  /** One side of a TCP connection of the DNS handler (`snd_buf` or `rcv_buf`). */
  class HandlerDecoder {
    var buf: seq<byte>

    constructor ()
      ensures buf == []
    {
      buf := [];
    }

    /** The framing loop of `send`: `messages` are the callbacks it makes, in order. */
    method Receive(data: seq<byte>) returns (messages: seq<seq<byte>>)
      modifies this
      ensures Parsed(messages, buf) == Parse(old(buf) + data)
    {
      buf := buf + data;
      var unread := buf;
      var read := 0;
      messages := [];
      while true
        invariant 0 <= read <= |buf| && unread == buf[read..]
        invariant Parse(buf) == Parsed(messages + Parse(unread).messages, Parse(unread).tail)
        decreases |unread|
      {
        if |unread| < 2 {
          break;
        }
        var size := GetU16(unread);
        if |unread| - 2 < size {
          break;
        }
        assert messages + ([unread[2..2 + size]] + Parse(unread[2 + size..]).messages)
            == (messages + [unread[2..2 + size]]) + Parse(unread[2 + size..]).messages;
        messages := messages + [unread[2..2 + size]];
        assert unread[2 + size..] == buf[read + 2 + size..];
        unread := unread[2 + size..];
        read := read + 2 + size;
      }
      assert messages + [] == messages;
      buf := buf[read..];
    }
  }

  /** Parsing for a reader that may already have taken the length off the stream. */
  function Resume(size: Option<nat>, buf: seq<byte>): Parsed
    requires size.Some? ==> size.value <= MAX_MESSAGE
  {
    if size.None? then Parse(buf)
    else if |buf| < size.value then Parsed([], PutU16(size.value) + buf)
    else Parsed([buf[..size.value]] + Parse(buf[size.value..]).messages, Parse(buf[size.value..]).tail)
  }

  lemma U16Join(buf: seq<byte>)
    requires |buf| >= 2
    ensures PutU16(GetU16(buf)) + buf[2..] == buf
  {
    var n := GetU16(buf);
    assert n / 256 == buf[0] && n % 256 == buf[1];
  }

  /** Taking the length off the stream changes nothing. */
  lemma ResumeSplit(buf: seq<byte>)
    requires |buf| >= 2
    ensures Resume(Some(GetU16(buf)), buf[2..]) == Parse(buf)
  {
    var n, rest := GetU16(buf), buf[2..];
    U16Join(buf);
    if |rest| >= n {
      assert rest[..n] == buf[2..2 + n] && rest[n..] == buf[2 + n..];
    }
  }

  /** A parsed length stands for the two bytes it was read from. */
  lemma ResumeHeld(size: nat, buf: seq<byte>, stream: seq<byte>)
    requires size <= MAX_MESSAGE && stream == PutU16(size) + buf
    ensures Resume(Some(size), buf) == Parse(stream)
  {
    U16RoundTrip(size, buf);
    assert stream[2..] == buf;
    ResumeSplit(stream);
  }

  /** The TCP response side of the DNS client (`m_response_buffer` and `m_response_size`). */
  class ClientDecoder {
    var buffer: seq<byte>
    var responseSize: Option<nat>

    ghost predicate Valid()
      reads this
    {
      responseSize.Some? ==> |buffer| < responseSize.value <= MAX_MESSAGE
    }

    /** The bytes the handler's decoder would be holding in this state. */
    ghost function Held(): seq<byte>
      requires Valid()
      reads this
    {
      if responseSize.Some? then PutU16(responseSize.value) + buffer else buffer
    }

    constructor ()
      ensures Valid() && Held() == []
    {
      buffer, responseSize := [], None;
    }

    /** The framing loop of `on_tcp_read`: `frames` are the responses it recognises, in order. */
    method Receive(data: seq<byte>) returns (frames: seq<seq<byte>>)
      requires Valid()
      modifies this
      ensures Valid() && Parsed(frames, Held()) == Parse(old(Held()) + data)
    {
      if responseSize.Some? {
        assert Held() + data == PutU16(responseSize.value) + (buffer + data);
        ResumeHeld(responseSize.value, buffer + data, Held() + data);
      }
      frames, responseSize, buffer := Scan(responseSize, buffer + data);
    }
  }

  /** The loop on its own: `unread` is the source's `pos` and `rem`. */
  method Scan(known: Option<nat>, buf: seq<byte>)
    returns (frames: seq<seq<byte>>, size: Option<nat>, unread: seq<byte>)
    requires known.Some? ==> known.value <= MAX_MESSAGE
    ensures size.Some? ==> |unread| < size.value <= MAX_MESSAGE
    ensures Resume(known, buf) == Parsed(frames, if size.Some? then PutU16(size.value) + unread else unread)
  {
    frames, size, unread := [], known, buf;
    while true
      invariant size.Some? ==> size.value <= MAX_MESSAGE
      invariant Resume(known, buf).messages == frames + Resume(size, unread).messages
      invariant Resume(known, buf).tail == Resume(size, unread).tail
      decreases |unread|, size.Some?
    {
      if size.None? {
        if |unread| < 2 {
          break;
        }
        ResumeSplit(unread);
        size, unread := Some(GetU16(unread)), unread[2..];
      }
      if |unread| < size.value {
        break;
      }
      Assoc(frames, [unread[..size.value]], Parse(unread[size.value..]).messages);
      frames := frames + [unread[..size.value]];
      unread := unread[size.value..];
      size := None;
    }
  }

  lemma FlattenPrefix<T>(chunks: seq<seq<T>>, i: nat)
    requires i < |chunks|
    ensures Flatten(chunks[..i + 1]) == Flatten(chunks[..i]) + chunks[i]
  {
    assert chunks[..i + 1] == chunks[..i] + [chunks[i]];
    FlattenSnoc(chunks[..i], chunks[i]);
  }

  lemma ParseMore(chunks: seq<seq<byte>>, i: nat)
    requires i < |chunks|
    ensures var before := Parse(Flatten(chunks[..i])); var now := Parse(before.tail + chunks[i]);
      Parse(Flatten(chunks[..i + 1])) == Parsed(before.messages + now.messages, now.tail)
  {
    FlattenPrefix(chunks, i);
    ParseSplits(Flatten(chunks[..i]), chunks[i]);
  }

  /** Decoders that hold the same bytes recognise the same messages, and hold the same bytes again. */
  method ReceiveBoth(handler: HandlerDecoder, client: ClientDecoder, data: seq<byte>)
    returns (byHandler: seq<seq<byte>>, byClient: seq<seq<byte>>)
    requires client.Valid() && client.Held() == handler.buf
    modifies handler, client
    ensures client.Valid() && client.Held() == handler.buf && byClient == byHandler
    ensures Parsed(byHandler, handler.buf) == Parse(old(handler.buf) + data)
  {
    byHandler := handler.Receive(data);
    byClient := client.Receive(data);
  }

  /** Both decoders turn any chunking of a stream into the messages the stream means. */
  method Deliver(chunks: seq<seq<byte>>)
    returns (byHandler: seq<seq<byte>>, byClient: seq<seq<byte>>, heldByHandler: seq<byte>, heldByClient: nat)
    ensures Parse(Flatten(chunks)) == Parsed(byHandler, heldByHandler)
    ensures byClient == byHandler && heldByClient <= |heldByHandler|
  {
    var handler := new HandlerDecoder();
    var client := new ClientDecoder();
    byHandler, byClient := [], [];
    var i := 0;
    while i < |chunks|
      invariant i <= |chunks| && client.Valid()
      invariant Parse(Flatten(chunks[..i])) == Parsed(byHandler, handler.buf)
      invariant byClient == byHandler && client.Held() == handler.buf
    {
      ParseMore(chunks, i);
      var more, same := ReceiveBoth(handler, client, chunks[i]);
      byHandler, byClient := byHandler + more, byClient + same;
      i := i + 1;
    }
    assert chunks[..i] == chunks;
    heldByHandler, heldByClient := handler.buf, |client.buffer|;
  }

  /**
   * Any messages, written to a stream that arrives in any chunks within one connection, come out of
   * both decoders, in order and with nothing left over; messages of up to 65535 bytes come out whole.
   */
  method Transmit(messages: seq<seq<byte>>, chunks: seq<seq<byte>>)
    returns (byHandler: seq<seq<byte>>, byClient: seq<seq<byte>>, left: nat)
    requires Flatten(chunks) == EncodeAll(messages)
    ensures byHandler == byClient && left == 0 && |byHandler| == |messages|
    ensures forall i | 0 <= i < |messages| && |messages[i]| <= MAX_MESSAGE :: byHandler[i] == messages[i]
  {
    var held;
    byHandler, byClient, held, left := Deliver(chunks);
    ParseEncoded(messages);
    left := left + |held|;
    forall i | 0 <= i < |messages| && |messages[i]| <= MAX_MESSAGE ensures byHandler[i] == messages[i] {
      CutIsWhole(messages[i]);
    }
  }
}
