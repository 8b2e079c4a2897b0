/**
 * The managed address record `SockaddrInV4` and the conversions `ToNative` and
 * `ToIpEndpoint` between it and an `IPEndPoint`.
 */
module AddressHelpers {
  import opened Primitives
  import opened RustAddr

  /** An `IPAddress`: four bytes for IPv4, sixteen for IPv6. */
  datatype IPAddress = V4(v4: Octets4) | V6(v6: Octets16)

  const Any: IPAddress := V4([0, 0, 0, 0])
  const IPv6Any: IPAddress := V6(seq(16, _ => 0))

  /** An `IPEndPoint`: an address and a port in 0 .. 65535. */
  datatype IPEndPoint = IPEndPoint(address: IPAddress, port: u16)

  /** `SockaddrInV4 { ushort port; fixed byte addr[4]; }`, sequential layout. */
  datatype SockaddrInV4 = SockaddrInV4(port: u16, addr: Octets4)

  const DefaultSockaddr: SockaddrInV4 := SockaddrInV4(0, [0, 0, 0, 0])

  /** Exchanges the two bytes of a 16-bit value. */
  function Swap16(p: u16): (r: u16)
    ensures r % 256 == p / 256 && r / 256 == p % 256
  {
    (p % 256) * 256 + p / 256
  }

  /** Swapping twice gives the value back. */
  lemma Swap16Involution(p: u16)
    ensures Swap16(Swap16(p)) == p
  {
    var q := Swap16(p);
    assert q % 256 == p / 256 && q / 256 == p % 256;
    assert Swap16(q) == (p / 256) * 256 + p % 256;
  }

  /**
   * `(ushort)IPAddress.NetworkToHostOrder((short)p)` and, being the same byte exchange,
   * `HostToNetworkOrder`: the identity on a big-endian machine, a byte swap on a little-endian one.
   */
  function NetworkToHostOrder(p: u16, e: Endian): u16
  {
    match e
    case LittleEndian => Swap16(p)
    case BigEndian => p
  }

  /** `ToIpEndpoint`: the four stored bytes in order, and the stored port read as network order. */
  function ToIpEndpoint(s: SockaddrInV4, e: Endian): (r: IPEndPoint)
    ensures r.address == V4(s.addr)
    ensures e.BigEndian? ==> r.port == s.port
    ensures e.LittleEndian? ==> r.port % 256 == s.port / 256 && r.port / 256 == s.port % 256
  {
    IPEndPoint(V4(s.addr), NetworkToHostOrder(s.port, e))
  }

  /**
   * `IPAddress.TryWriteBytes` into a span of `capacity` bytes: succeeds and writes the
   * address bytes when they fit, otherwise reports failure and writes nothing.
   */
  function TryWriteBytes(a: IPAddress, capacity: nat): (r: (bool, seq<byte>))
    ensures r.0 <==> (a.V4? && capacity >= 4) || (a.V6? && capacity >= 16)
    ensures r.0 ==> r.1 == (if a.V4? then a.v4 else a.v6)
    ensures !r.0 ==> r.1 == []
  {
    match a
    case V4(b) => if capacity >= 4 then (true, b) else (false, [])
    case V6(b) => if capacity >= 16 then (true, b) else (false, [])
  }

  /**
   * `SetPort`: stores the original port truncated to 16 bits. The network-order value it
   * computes is never used.
   */
  method SetPort(s: SockaddrInV4, originalPort: int, e: Endian) returns (r: SockaddrInV4)
    ensures r.addr == s.addr
    ensures 0 <= originalPort < 0x1_0000 ==> r.port == originalPort
  {
    var convertedPort := NetworkToHostOrder(originalPort % 0x1_0000, e);
    r := s.(port := originalPort % 0x1_0000);
  }

  /** The record `ToNative` produces: the address bytes of an IPv4 address, zeros otherwise. */
  function NativeOf(ep: IPEndPoint): SockaddrInV4
  {
    SockaddrInV4(ep.port, if ep.address.V4? then ep.address.v4 else [0, 0, 0, 0])
  }

  /**
   * `ToNative`: starts from the zeroed record; unless the address is `Any` or `IPv6Any`
   * it tries to write the address into the four address bytes (an IPv6 address does not
   * fit and leaves them zero); then sets the port.
   */
  method ToNative(ep: IPEndPoint, e: Endian) returns (s: SockaddrInV4)
    ensures s == NativeOf(ep)
    ensures ep.address == Any || ep.address == IPv6Any ==> s.addr == [0, 0, 0, 0]
  {
    s := DefaultSockaddr;
    if ep.address != Any && ep.address != IPv6Any {
      var written := TryWriteBytes(ep.address, 4);
      if written.0 {
        s := s.(addr := written.1);
      }
    }
    s := SetPort(s, ep.port, e);
  }

  /**
   * `ToIpEndpoint(ToNative(ep))` keeps every IPv4 address (`Any` is all zeros anyway);
   * the port comes back unchanged on a big-endian machine and byte-swapped on a
   * little-endian one, so converting a second time restores it.
   */
  lemma NativeRoundTrip(ep: IPEndPoint, e: Endian)
    ensures ep.address.V4? ==> ToIpEndpoint(NativeOf(ep), e).address == ep.address
    ensures e.BigEndian? ==> ToIpEndpoint(NativeOf(ep), e).port == ep.port
    ensures e.LittleEndian? ==> ToIpEndpoint(NativeOf(ep), e).port == Swap16(ep.port)
    ensures NetworkToHostOrder(ToIpEndpoint(NativeOf(ep), e).port, e) == ep.port
  {
    match e
    case LittleEndian => Swap16Involution(ep.port);
    case BigEndian =>
  }

  /** The managed record's bytes: the port at offset 0 in machine order, the address at offset 2. */
  function SockaddrBytes(s: SockaddrInV4, e: Endian): (r: seq<byte>)
    ensures |r| == 6
    ensures r[..2] == U16Bytes(s.port, e) && r[2..] == s.addr
  {
    U16Bytes(s.port, e) + s.addr
  }

  /** Reading six bytes as a managed record. */
  function SockaddrFromBytes(b: seq<byte>, e: Endian): SockaddrInV4
    requires |b| == 6
  {
    SockaddrInV4(U16FromBytes(b[0], b[1], e), b[2..])
  }

  /**
   * The two records have the same layout: the bytes of a native `IpAddr` read as a
   * `SockaddrInV4` give the same port and the same octets, and the bytes are identical.
   */
  lemma LayoutsAgree(x: IpAddr, e: Endian)
    ensures SockaddrFromBytes(RecordBytes(x, e), e) == SockaddrInV4(x.port, x.address)
    ensures SockaddrBytes(SockaddrInV4(x.port, x.address), e) == RecordBytes(x, e)
  {
    var b := RecordBytes(x, e);
    U16BytesRoundTrip(x.port, e);
    assert b[2..] == x.address;
  }
}
