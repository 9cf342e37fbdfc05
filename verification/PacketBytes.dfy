/**
 * The packets the nDPI engine makes up around a payload: IPv4 (section 3.1 of RFC 791) or IPv6 (section 3 of
 * RFC 8200) with a TCP or UDP header, written into a buffer, and a reader that takes them apart again.
 */
module PacketBytes {
  import opened Common
  import opened ClientHello
  import opened FlowTable

  datatype Transport = TCP | UDP

  datatype Address = V4(bytes: Bytes) | V6(bytes: Bytes)

  predicate AddressOk(a: Address) {
    if a.V4? then |a.bytes| == 4 else |a.bytes| == 16
  }

  /** What a request carries; None is text that is no address. */
  datatype Request = Request(network: string, direction: Direction, source: Option<Address>, destination: Option<Address>,
                             sourcePort: int, destinationPort: int, payload: Bytes)

  const FALLBACK_SOURCE := V4([10, 0, 0, 1])
  const FALLBACK_DESTINATION := V4([10, 0, 0, 2])

  const MAPPED: Bytes := [0, 0, 0, 0, 0, 0, 0, 0, 0, 0, 255, 255]

  /** Unmap: an IPv4-mapped IPv6 address is the IPv4 address in it. */
  function Unmapped(a: Address): Address
    requires AddressOk(a)
  {
    if a.V6? && a.bytes[..12] == MAPPED then V4(a.bytes[12..]) else a
  }

  function AddressOr(a: Option<Address>, fallback: Address): Address
    requires a.Some? ==> AddressOk(a.value)
  {
    if a.Some? then Unmapped(a.value) else fallback
  }

  function PortOr(port: int, fallback: nat): nat {
    if port < 1 || port > 65535 then fallback else port
  }

  // ---- the reader ----

  function U32(s: Bytes, at: nat): nat
    requires at + 4 <= |s|
  {
    U16(s, at) * 65536 + U16(s, at + 2)
  }

  /** A packet taken apart; sequence is meaningful for TCP only. */
  datatype Decoded = Decoded(transport: Transport, source: Address, destination: Address, sourcePort: nat,
                             destinationPort: nat, sequence: nat, payload: Bytes)

  /** The transport header at from, whose data ends at end. */
  function DecodeTransport(p: Bytes, protocol: nat, from: nat, end: nat, source: Address, destination: Address): Option<Decoded>
    requires end <= |p|
  {
    if protocol == 6 && from + 20 <= end && At(p, from + 12) / 16 == 5 then
      Some(Decoded(TCP, source, destination, U16(p, from), U16(p, from + 2), U32(p, from + 4), p[from + 20..end]))
    else if protocol == 17 && from + 8 <= end && U16(p, from + 4) == end - from then
      Some(Decoded(UDP, source, destination, U16(p, from), U16(p, from + 2), 0, p[from + 8..end]))
    else None
  }

  /** The version decides the layout; lengths must match the packet. */
  function Decode(p: Bytes): Option<Decoded> {
    if |p| >= 20 && At(p, 0) == 0x45 && U16(p, 2) == |p| then
      DecodeTransport(p, At(p, 9), 20, |p|, V4(p[12..16]), V4(p[16..20]))
    else if |p| >= 40 && At(p, 0) == 0x60 && U16(p, 4) == |p| - 40 then
      DecodeTransport(p, At(p, 6), 40, |p|, V6(p[8..24]), V6(p[24..40]))
    else None
  }

  function HeaderSize(t: Transport): nat {
    if t == TCP then 20 else 8
  }

  // ---- writing ----

  method PutU16(a: array<Byte>, at: nat, n: nat)
    requires at + 2 <= a.Length
    modifies a
    ensures forall k | 0 <= k < a.Length && k != at && k != at + 1 :: a[k] == old(a[k])
    ensures U16(a[..], at) == n % 65536
  {
    a[at], a[at + 1] := n / 256 % 256, n % 256;
  }

  method PutU32(a: array<Byte>, at: nat, n: nat)
    requires at + 4 <= a.Length && n < TWO_32
    modifies a
    ensures forall k | 0 <= k < a.Length && !(at <= k < at + 4) :: a[k] == old(a[k])
    ensures U32(a[..], at) == n
  {
    PutU16(a, at, n / 65536);
    PutU16(a, at + 2, n % 65536);
  }

  method Copy(a: array<Byte>, at: nat, s: Bytes)
    requires at + |s| <= a.Length
    modifies a
    ensures forall k | 0 <= k < a.Length && !(at <= k < at + |s|) :: a[k] == old(a[k])
    ensures a[at..at + |s|] == s
  {
    for i := 0 to |s|
      invariant forall k | 0 <= k < a.Length && !(at <= k < at + i) :: a[k] == old(a[k])
      invariant forall k | 0 <= k < i :: a[at + k] == s[k]
    {
      a[at + i] := s[i];
    }
    ghost var copied := a[at..at + |s|];
    assert forall k | 0 <= k < |s| :: copied[k] == s[k];
  }

  /** What a transport header at from says. */
  predicate TransportAt(p: Bytes, from: nat, t: Transport, sourcePort: nat, destinationPort: nat, sequence: nat, size: nat)
    requires from + HeaderSize(t) <= |p|
  {
    && U16(p, from) == sourcePort && U16(p, from + 2) == destinationPort
    && if t == TCP then U32(p, from + 4) == sequence && At(p, from + 12) == 0x50 && At(p, from + 13) == 0x18 && U16(p, from + 14) == 65535
       else U16(p, from + 4) == (8 + size) % 65536
  }

  method WriteTransportHeader(a: array<Byte>, from: nat, t: Transport, sourcePort: nat, destinationPort: nat, sequence: nat, size: nat)
    requires from + HeaderSize(t) <= a.Length && sourcePort < 65536 && destinationPort < 65536 && sequence < TWO_32
    modifies a
    ensures forall k | 0 <= k < a.Length && !(from <= k < from + HeaderSize(t)) :: a[k] == old(a[k])
    ensures TransportAt(a[..], from, t, sourcePort, destinationPort, sequence, size)
  {
    PutU16(a, from, sourcePort);
    PutU16(a, from + 2, destinationPort);
    if t == TCP {
      PutU32(a, from + 4, sequence);
      a[from + 12] := 0x50;
      a[from + 13] := 0x18;
      PutU16(a, from + 14, 65535);
      return;
    }
    PutU16(a, from + 4, 8 + size);
  }

  function ProtocolOf(t: Transport): Byte {
    if t == TCP then 6 else 17
  }

  /** The packet of the expected form, told from its bytes. */
  predicate IPv4At(p: Bytes, t: Transport, source: Bytes, destination: Bytes) {
    && |p| >= 20 && At(p, 0) == 0x45 && U16(p, 2) == |p| % 65536 && p[8] == 64 && p[9] == ProtocolOf(t)
    && p[12..16] == source && p[16..20] == destination
  }

  predicate IPv6At(p: Bytes, t: Transport, source: Bytes, destination: Bytes) {
    && |p| >= 40 && At(p, 0) == 0x60 && U16(p, 4) == (|p| - 40) % 65536 && p[6] == ProtocolOf(t) && p[7] == 64
    && p[8..24] == source && p[24..40] == destination
  }

  lemma HeadersStay(p: Bytes, q: Bytes, t: Transport, source: Bytes, destination: Bytes)
    requires |p| == |q|
    ensures |p| >= 20 && p[..20] == q[..20] ==> (IPv4At(p, t, source, destination) <==> IPv4At(q, t, source, destination))
    ensures |p| >= 40 && p[..40] == q[..40] ==> (IPv6At(p, t, source, destination) <==> IPv6At(q, t, source, destination))
  {
    if |p| >= 20 && p[..20] == q[..20] {
      SameBytes(p, q, 20);
      assert p[12..16] == q[12..16] && p[16..20] == q[16..20];
    }
    if |p| >= 40 && p[..40] == q[..40] {
      SameBytes(p, q, 40);
      assert p[8..24] == q[8..24] && p[24..40] == q[24..40];
    }
  }

  lemma SameBytes(p: Bytes, q: Bytes, n: nat)
    requires n <= |p| && n <= |q| && p[..n] == q[..n]
    ensures forall k | 0 <= k < n :: p[k] == q[k]
  {
    forall k | 0 <= k < n ensures p[k] == q[k] {
      assert p[..n][k] == q[..n][k];
    }
  }

  method WriteIPv4Header(packet: array<Byte>, t: Transport, source: Bytes, destination: Bytes)
    requires |source| == 4 && |destination| == 4 && packet.Length >= 20
    modifies packet
    ensures IPv4At(packet[..], t, source, destination)
  {
    packet[0] := 0x45;
    PutU16(packet, 2, packet.Length);
    packet[8] := 64;
    packet[9] := ProtocolOf(t);
    Copy(packet, 12, source);
    Copy(packet, 16, destination);
  }

  method WriteIPv6Header(packet: array<Byte>, t: Transport, source: Bytes, destination: Bytes)
    requires |source| == 16 && |destination| == 16 && packet.Length >= 40
    modifies packet
    ensures IPv6At(packet[..], t, source, destination)
  {
    packet[0] := 0x60;
    PutU16(packet, 4, packet.Length - 40);
    packet[6] := ProtocolOf(t);
    packet[7] := 64;
    Copy(packet, 8, source);
    Copy(packet, 24, destination);
  }

  /** Transport header and payload behind a network header of the given size, which stays as it is. */
  method WriteRest(packet: array<Byte>, from: nat, t: Transport, sourcePort: nat, destinationPort: nat, sequence: nat, payload: Bytes)
    requires packet.Length == from + HeaderSize(t) + |payload|
    requires sourcePort < 65536 && destinationPort < 65536 && sequence < TWO_32
    modifies packet
    ensures packet[..from] == old(packet[..from])
    ensures TransportAt(packet[..], from, t, sourcePort, destinationPort, sequence, |payload|)
    ensures packet[from + HeaderSize(t)..] == payload
  {
    WriteTransportHeader(packet, from, t, sourcePort, destinationPort, sequence, |payload|);
    Copy(packet, from + HeaderSize(t), payload);
    assert packet[from + HeaderSize(t)..] == packet[from + HeaderSize(t)..from + HeaderSize(t) + |payload|];
  }

  method SynthesizeIPv4(t: Transport, source: Bytes, destination: Bytes, sourcePort: nat, destinationPort: nat, sequence: nat,
                        payload: Bytes) returns (packet: array<Byte>)
    requires |source| == 4 && |destination| == 4 && sourcePort < 65536 && destinationPort < 65536 && sequence < TWO_32
    ensures fresh(packet) && packet.Length == 20 + HeaderSize(t) + |payload|
    ensures IPv4At(packet[..], t, source, destination)
    ensures TransportAt(packet[..], 20, t, sourcePort, destinationPort, sequence, |payload|)
    ensures packet[20 + HeaderSize(t)..] == payload
  {
    packet := new Byte[20 + HeaderSize(t) + |payload|](_ => 0);
    WriteIPv4Header(packet, t, source, destination);
    ghost var before := packet[..];
    WriteRest(packet, 20, t, sourcePort, destinationPort, sequence, payload);
    assert packet[..][..20] == packet[..20] && before[..20] == packet[..20];
    HeadersStay(before, packet[..], t, source, destination);
  }

  method SynthesizeIPv6(t: Transport, source: Bytes, destination: Bytes, sourcePort: nat, destinationPort: nat, sequence: nat,
                        payload: Bytes) returns (packet: array<Byte>)
    requires |source| == 16 && |destination| == 16 && sourcePort < 65536 && destinationPort < 65536 && sequence < TWO_32
    ensures fresh(packet) && packet.Length == 40 + HeaderSize(t) + |payload|
    ensures IPv6At(packet[..], t, source, destination)
    ensures TransportAt(packet[..], 40, t, sourcePort, destinationPort, sequence, |payload|)
    ensures packet[40 + HeaderSize(t)..] == payload
  {
    packet := new Byte[40 + HeaderSize(t) + |payload|](_ => 0);
    WriteIPv6Header(packet, t, source, destination);
    ghost var before := packet[..];
    WriteRest(packet, 40, t, sourcePort, destinationPort, sequence, payload);
    assert packet[..][..40] == packet[..40] && before[..40] == packet[..40];
    HeadersStay(before, packet[..], t, source, destination);
  }

  // ---- reading them back ----

  /** An IPv4 packet of the written form reads back exactly if its length fits the length field. */
  lemma IPv4RoundTrip(p: Bytes, t: Transport, source: Bytes, destination: Bytes, sourcePort: nat, destinationPort: nat,
                      sequence: nat, payload: Bytes)
    requires |p| == 20 + HeaderSize(t) + |payload| && p[20 + HeaderSize(t)..] == payload
    requires IPv4At(p, t, source, destination) && TransportAt(p, 20, t, sourcePort, destinationPort, sequence, |payload|)
    ensures Decode(p) == if |p| > 65535 then None
              else Some(Decoded(t, V4(source), V4(destination), sourcePort, destinationPort, if t == TCP then sequence else 0, payload))
  {
    assert p[20 + HeaderSize(t)..|p|] == payload;
  }

  lemma IPv6RoundTrip(p: Bytes, t: Transport, source: Bytes, destination: Bytes, sourcePort: nat, destinationPort: nat,
                      sequence: nat, payload: Bytes)
    requires |p| == 40 + HeaderSize(t) + |payload| && p[40 + HeaderSize(t)..] == payload
    requires IPv6At(p, t, source, destination) && TransportAt(p, 40, t, sourcePort, destinationPort, sequence, |payload|)
    ensures Decode(p) == if |p| - 40 > 65535 then None
              else Some(Decoded(t, V6(source), V6(destination), sourcePort, destinationPort, if t == TCP then sequence else 0, payload))
  {
    assert p[40 + HeaderSize(t)..|p|] == payload;
  }

  // ---- the request ----

  predicate RequestOk(r: Request) {
    (r.source.Some? ==> AddressOk(r.source.value)) && (r.destination.Some? ==> AddressOk(r.destination.value))
  }

  /** Source and destination of the packet: swapped for the answering direction, and both IPv4 or both IPv6. */
  function Ends(r: Request): (Address, Address)
    requires RequestOk(r)
  {
    var (a, b) := (AddressOr(r.source, FALLBACK_SOURCE), AddressOr(r.destination, FALLBACK_DESTINATION));
    if a.V6? != b.V6? then (FALLBACK_SOURCE, FALLBACK_DESTINATION)
    else if r.direction == ServerToClient then (b, a) else (a, b)
  }

  function Ports(r: Request): (nat, nat) {
    var (a, b) := (PortOr(r.sourcePort, 40000), PortOr(r.destinationPort, 443));
    if r.direction == ServerToClient then (b, a) else (a, b)
  }

  function TransportOf(r: Request): Transport {
    if r.network == "tcp" then TCP else UDP
  }

  /** The address of one side: text that is none stands for a private one, and a mapped IPv4 address for itself. */
  predicate SideOf(a: Option<Address>, host: Byte, side: Address)
    requires a.Some? ==> AddressOk(a.value)
  {
    match a
    case None => side == V4([10, 0, 0, host])
    case Some(V4(bytes)) => side == V4(bytes)
    case Some(V6(bytes)) => side == if bytes[..12] == [0, 0, 0, 0, 0, 0, 0, 0, 0, 0, 0xff, 0xff] then V4(bytes[12..]) else V6(bytes)
  }

  /**
   * From client to server a packet has the request's ends, and the other way exactly the same ones changed round; when
   * one would be IPv4 and the other IPv6, both are private addresses in either direction.
   */
  lemma EndsMean(r: Request, a: Address, b: Address)
    requires RequestOk(r) && SideOf(r.source, 1, a) && SideOf(r.destination, 2, b)
    ensures a.V4? == b.V4? ==> Ends(r.(direction := ClientToServer)) == (a, b) && Ends(r.(direction := ServerToClient)) == (b, a)
    ensures a.V4? != b.V4? ==> Ends(r) == (V4([10, 0, 0, 1]), V4([10, 0, 0, 2]))
  {
  }

  /** A port that is none stands for 40000 at the client's side and 443 at the server's. */
  lemma PortsMean(r: Request)
    ensures var (a, b) := Ports(r.(direction := ClientToServer));
      && Ports(r.(direction := ServerToClient)) == (b, a)
      && a == (if 0 < r.sourcePort < 65536 then r.sourcePort else 40000)
      && b == (if 0 < r.destinationPort < 65536 then r.destinationPort else 443)
  {
  }

  /** What a reader finds in the bytes is the request, with this sequence number; too long a packet cannot be read. */
  predicate IsPacketOf(p: Bytes, r: Request, sequence: nat)
    requires RequestOk(r)
  {
    Decode(p) == if |p| - (if Ends(r).0.V4? then 0 else 40) > 65535 then None
      else Some(Decoded(TransportOf(r), Ends(r).0, Ends(r).1, Ports(r).0, Ports(r).1,
                        if TransportOf(r) == TCP then sequence else 0, r.payload))
  }

  /** The whole packet of a request, and 1 or 2 for its direction; only the network can be refused. */
  method SynthesizePacket(r: Request, sequence: nat) returns (packet: Option<array<Byte>>, direction: nat)
    requires RequestOk(r) && sequence < TWO_32
    ensures packet.None? <==> r.network != "tcp" && r.network != "udp"
    ensures packet.Some? ==> fresh(packet.value) && direction == if r.direction == ServerToClient then 2 else 1
    ensures packet.Some? ==> IsPacketOf(packet.value[..], r, sequence)
    ensures packet.Some? && Decode(packet.value[..]).Some? ==>
              Decode(packet.value[..]).value.transport == if r.network == "tcp" then TCP else UDP
  {
    if r.network != "tcp" && r.network != "udp" {
      return None, 0;
    }
    var source, destination := AddressOr(r.source, FALLBACK_SOURCE), AddressOr(r.destination, FALLBACK_DESTINATION);
    var sourcePort, destinationPort := PortOr(r.sourcePort, 40000), PortOr(r.destinationPort, 443);
    direction := 1;
    if r.direction == ServerToClient {
      source, destination := destination, source;
      sourcePort, destinationPort := destinationPort, sourcePort;
      direction := 2;
    }
    if source.V6? != destination.V6? {
      source, destination := FALLBACK_SOURCE, FALLBACK_DESTINATION;
    }
    var t := TransportOf(r);
    if source.V6? {
      var p := SynthesizeIPv6(t, source.bytes, destination.bytes, sourcePort, destinationPort, sequence, r.payload);
      IPv6RoundTrip(p[..], t, source.bytes, destination.bytes, sourcePort, destinationPort, sequence, r.payload);
      return Some(p), direction;
    }
    var p := SynthesizeIPv4(t, source.bytes, destination.bytes, sourcePort, destinationPort, sequence, r.payload);
    IPv4RoundTrip(p[..], t, source.bytes, destination.bytes, sourcePort, destinationPort, sequence, r.payload);
    return Some(p), direction;
  }
}
