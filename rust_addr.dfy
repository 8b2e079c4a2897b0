/**
 * The native address record `IpAddr` (a port and four IPv4 octets, `#[repr(C)]`) and its
 * conversions from and to a socket address.
 */
module RustAddr {
  import opened Primitives

  /** Byte order of the machine the record lives on. */
  datatype Endian = LittleEndian | BigEndian

  /** `IpAddr { port: u16, address: [u8; 4] }`. */
  datatype IpAddr = IpAddr(port: u16, address: Octets4)

  /** A socket address; scope and flow information of V6 addresses play no part here. */
  datatype SocketAddr = SockV4(ip: Octets4, port: u16) | SockV6(ip6: Octets16, port: u16)

  /**
   * `From<SocketAddr> for IpAddr`: copies port and octets of a V4 address; a V6 address
   * panics, which `None` stands for.
   */
  function FromSocketAddr(a: SocketAddr): (r: Option<IpAddr>)
    ensures r.None? <==> a.SockV6?
    ensures r.Some? ==> r.value.port == a.port && r.value.address == a.ip
    ensures r.Some? ==> IntoSocketAddr(r.value) == a
  {
    match a
    case SockV4(ip, port) => Some(IpAddr(port, ip))
    case SockV6(_, _) => None
  }

  /** `Into<SocketAddr> for IpAddr`: a V4 address with the same octets, in order, and port. */
  function IntoSocketAddr(x: IpAddr): (r: SocketAddr)
    ensures r.SockV4? && r.port == x.port
    ensures forall i :: 0 <= i < 4 ==> r.ip[i] == x.address[i]
  {
    SockV4([x.address[0], x.address[1], x.address[2], x.address[3]], x.port)
  }

  /** IpAddr -> SocketAddr -> IpAddr is the identity. */
  lemma IpAddrRoundTrip(x: IpAddr)
    ensures FromSocketAddr(IntoSocketAddr(x)) == Some(x)
  {
    var a := IntoSocketAddr(x);
    assert a.ip == x.address;
  }

  /** The two bytes of a 16-bit value in the machine's order. */
  function U16Bytes(v: u16, e: Endian): (r: seq<byte>)
    ensures |r| == 2
  {
    match e
    case LittleEndian => [v % 256, v / 256]
    case BigEndian => [v / 256, v % 256]
  }

  function U16FromBytes(b0: byte, b1: byte, e: Endian): u16
  {
    match e
    case LittleEndian => b1 * 256 + b0
    case BigEndian => b0 * 256 + b1
  }

  lemma U16BytesRoundTrip(v: u16, e: Endian)
    ensures U16FromBytes(U16Bytes(v, e)[0], U16Bytes(v, e)[1], e) == v
  {
  }

  /** The six bytes of the `#[repr(C)]` record: the port at offset 0, the octets at offset 2. */
  function RecordBytes(x: IpAddr, e: Endian): (r: seq<byte>)
    ensures |r| == 6
    ensures r[..2] == U16Bytes(x.port, e) && r[2..] == x.address
  {
    U16Bytes(x.port, e) + x.address
  }
}
