/** Wire format of UDP datagrams multiplexed into one HTTP stream. */
module UdpWire {
  import opened Prelude

  const LENGTH_SIZE: nat := 4
  const ADDR_SIZE: nat := 16
  const PREFIX_SIZE: nat := 40            // UDPPKT_IN_PREFIX_SIZE
  const MAX_UDP_PAYLOAD: nat := 65527     // 65535 minus the 8-byte UDP header
  const MAX_IN_PACKET_LENGTH: nat := MAX_UDP_PAYLOAD + PREFIX_SIZE - LENGTH_SIZE

  datatype Ip = V4(bytes: seq<byte>) | V6(bytes: seq<byte>) {
    predicate Valid() {
      |bytes| == if V4? then 4 else ADDR_SIZE
    }
  }

  datatype Endpoint = Endpoint(ip: Ip, port: nat) {
    predicate Valid() {
      ip.Valid() && port < 0x1_0000
    }
  }

  datatype AddressPair = AddressPair(src: Endpoint, dst: Endpoint)

  const ZEROS12: seq<byte> := [0, 0, 0, 0, 0, 0, 0, 0, 0, 0, 0, 0]
  const LOOPBACK6: seq<byte> := ZEROS12 + [0, 0, 0, 1]

  /** `put_ip_padded`: IPv4 addresses are left-padded with zeros to 16 bytes. */
  function PutIp(ip: Ip): (r: seq<byte>)
    requires ip.Valid()
    ensures |r| == ADDR_SIZE
  {
    if ip.V4? then ZEROS12 + ip.bytes else ip.bytes
  }

  /** `get_ip_padded`: twelve leading zeros mean IPv4, unless the address is `::1`. */
  function GetIp(s: seq<byte>): (ip: Ip)
    requires |s| == ADDR_SIZE
    ensures ip.Valid()
  {
    if s[..12] == ZEROS12 && s != LOOPBACK6 then V4(s[12..]) else V6(s)
  }

  /** Addresses that survive the padded form. */
  predicate Unambiguous(ip: Ip) {
    if ip.V4? then ip.bytes != [0, 0, 0, 1]
    else |ip.bytes| == ADDR_SIZE && (ip.bytes[..12] == ZEROS12 ==> ip.bytes == LOOPBACK6)
  }

  /**
   * The padded form loses the address family of 0.0.0.1 and of the IPv6 addresses in `::/96`
   * other than `::1`, and of no others.
   */
  lemma IpRoundTrip(ip: Ip)
    requires ip.Valid()
    ensures GetIp(PutIp(ip)) == ip <==> Unambiguous(ip)
  {
    var s := PutIp(ip);
    if ip.V4? {
      assert s[..12] == ZEROS12 && s[12..] == ip.bytes;
      assert s == LOOPBACK6 <==> ip.bytes == [0, 0, 0, 1] by {
        assert LOOPBACK6[12..] == [0, 0, 0, 1];
      }
    }
  }

  function PutU32(n: nat): (r: seq<byte>)
    requires n < 0x1_0000_0000
    ensures |r| == 4
  {
    PutU16(n / 0x1_0000) + PutU16(n % 0x1_0000)
  }

  function GetU32(s: seq<byte>): nat
    requires |s| == 4
  {
    GetU16(s[..2]) * 0x1_0000 + GetU16(s[2..])
  }

  lemma U32RoundTrip(n: nat)
    requires n < 0x1_0000_0000
    ensures GetU32(PutU32(n)) == n
  {
    U16RoundTrip(n / 0x1_0000, []);
    U16RoundTrip(n % 0x1_0000, []);
    assert PutU32(n)[..2] == PutU16(n / 0x1_0000) && PutU32(n)[2..] == PutU16(n % 0x1_0000);
  }

  /** The fixed part in front of every datagram, in both directions. */
  function PutPrefix(length: nat, src: Endpoint, dst: Endpoint): (r: seq<byte>)
    requires length < 0x1_0000_0000 && src.Valid() && dst.Valid()
    ensures |r| == PREFIX_SIZE
  {
    PutU32(length) + PutIp(src.ip) + PutU16(src.port) + PutIp(dst.ip) + PutU16(dst.port)
  }

  function PrefixLength(s: seq<byte>): nat
    requires |s| == PREFIX_SIZE
  {
    GetU32(s[..4])
  }

  function PrefixSource(s: seq<byte>): Endpoint
    requires |s| == PREFIX_SIZE
  {
    Endpoint(GetIp(s[4..20]), GetU16(s[20..22]))
  }

  function PrefixDestination(s: seq<byte>): Endpoint
    requires |s| == PREFIX_SIZE
  {
    Endpoint(GetIp(s[22..38]), GetU16(s[38..40]))
  }

  lemma PrefixFields(length: nat, src: Endpoint, dst: Endpoint, s: seq<byte>)
    requires length < 0x1_0000_0000 && src.Valid() && dst.Valid() && s == PutPrefix(length, src, dst)
    ensures s[..4] == PutU32(length)
    ensures s[4..20] == PutIp(src.ip) && s[20..22] == PutU16(src.port)
    ensures s[22..38] == PutIp(dst.ip) && s[38..40] == PutU16(dst.port)
  {
  }

  lemma PrefixRoundTrip(length: nat, src: Endpoint, dst: Endpoint)
    requires length < 0x1_0000_0000 && src.Valid() && dst.Valid()
    requires Unambiguous(src.ip) && Unambiguous(dst.ip)
    ensures var s := PutPrefix(length, src, dst);
            PrefixLength(s) == length && PrefixSource(s) == src && PrefixDestination(s) == dst
  {
    PrefixFields(length, src, dst, PutPrefix(length, src, dst));
    U32RoundTrip(length);
    U16RoundTrip(src.port, []);
    U16RoundTrip(dst.port, []);
    IpRoundTrip(src.ip);
    IpRoundTrip(dst.ip);
  }

  // A datagram as the endpoint sends it to the client.
  datatype Packet = Packet(src: Endpoint, dst: Endpoint, payload: seq<byte>) {
    predicate Valid() {
      && src.Valid() && dst.Valid() && Unambiguous(src.ip) && Unambiguous(dst.ip)
      && |payload| <= MAX_UDP_PAYLOAD
    }

    function Prefix(): (r: seq<byte>)
      requires Valid()
      ensures |r| == PREFIX_SIZE
    {
      PutPrefix(PREFIX_SIZE - LENGTH_SIZE + |payload|, src, dst)
    }
  }

  function Encode(p: Packet): seq<byte>
    requires p.Valid()
  {
    p.Prefix() + p.payload
  }

  /**
   * `compose_udp_packet`: the buffer is sized for the whole application name, of which at most 255
   * bytes are written; the rest of the buffer stays zero.
   */
  function Compose(src: Endpoint, dst: Endpoint, appName: seq<byte>, data: seq<byte>): seq<byte>
    requires src.Valid() && dst.Valid() && PREFIX_SIZE + 1 + |appName| + |data| < 0x1_0000_0000
  {
    var name := if |appName| > 255 then appName[..255] else appName;
    PutPrefix(PREFIX_SIZE + 1 + |appName| + |data| - LENGTH_SIZE, src, dst)
    + [|name|] + name + data + seq(|appName| - |name|, _ => 0)
  }

  /** What the outgoing format says the payload of a composed packet is. */
  function ComposedPayload(packet: seq<byte>): seq<byte>
    requires |packet| > PREFIX_SIZE && |packet| >= PREFIX_SIZE + 1 + packet[PREFIX_SIZE]
  {
    packet[PREFIX_SIZE + 1 + packet[PREFIX_SIZE]..]
  }

  /** The length field always spans the packet; the payload survives exactly for names of up to 255 bytes. */
  lemma ComposeRoundTrip(src: Endpoint, dst: Endpoint, appName: seq<byte>, data: seq<byte>)
    requires src.Valid() && dst.Valid() && PREFIX_SIZE + 1 + |appName| + |data| < 0x1_0000_0000
    requires Unambiguous(src.ip) && Unambiguous(dst.ip)
    ensures var packet := Compose(src, dst, appName, data);
            && |packet| >= PREFIX_SIZE + 1 + Min(|appName|, 255) && packet[PREFIX_SIZE] == Min(|appName|, 255)
            && PrefixLength(packet[..PREFIX_SIZE]) + LENGTH_SIZE == |packet|
            && PrefixSource(packet[..PREFIX_SIZE]) == src && PrefixDestination(packet[..PREFIX_SIZE]) == dst
            && (ComposedPayload(packet) == data <==> |appName| <= 255)
  {
    var name := if |appName| > 255 then appName[..255] else appName;
    var length := PREFIX_SIZE + 1 + |appName| + |data| - LENGTH_SIZE;
    var prefix := PutPrefix(length, src, dst);
    var padding: seq<byte> := seq(|appName| - |name|, _ => 0);
    PrefixRoundTrip(length, src, dst);
    Assoc(prefix, [|name|], name);
    Layout(prefix, [|name|] + name, data, padding);
  }

  /** Where the parts of a packet are, and when its payload is all of the rest. */
  lemma Layout(prefix: seq<byte>, name: seq<byte>, data: seq<byte>, padding: seq<byte>)
    requires name != []
    ensures var packet := ((prefix + name) + data) + padding;
      && packet[..|prefix|] == prefix && packet[|prefix|] == name[0]
      && (packet[|prefix| + |name|..] == data <==> padding == [])
  {
    var packet := ((prefix + name) + data) + padding;
    assert packet[|prefix| + |name|..] == data + padding;
  }
}
