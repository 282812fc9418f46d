/** relay/utils.go: classifying a TCP address as IPv4 or IPv6, and printing
    raw address bytes as text. */
module Utils {
  import opened Wrappers
  import opened Text
  import opened NetAddr

  datatype AddrType = AddrTypeIpv4 | AddrTypeIpv6

  /** `net.TCPAddr`: the IP is a byte slice of any length. */
  datatype TcpAddr = TcpAddr(ip: seq<byte>, port: int, zone: string)

  /** IPv4 exactly when `To4` finds an IPv4 form: a 4-byte address or a
      16-byte `::ffff:a.b.c.d` one. */
  function GetTcpAddrType(address: TcpAddr): (t: AddrType)
    ensures t == AddrTypeIpv4 <==> |address.ip| == 4 || (|address.ip| == 16 && Is4In6(address.ip))
  {
    if To4(address.ip).Some? then AddrTypeIpv4 else AddrTypeIpv6
  }

  /** The 16-byte `::ffff:a.b.c.d` form of an IPv4 address. */
  function Mapped(o: Octets4): (b: Octets16)
  {
    [0, 0, 0, 0, 0, 0, 0, 0, 0, 0, 0xff, 0xff] + o
  }

  /** An IPv4 address is classified as IPv4 in both of its forms, and `To4`
      recovers its four bytes from either. */
  lemma Ipv4BothForms(o: Octets4, port: int, zone: string)
    ensures To4(o) == Some(o) && To4(Mapped(o)) == Some(o)
    ensures GetTcpAddrType(TcpAddr(o, port, zone)) == AddrTypeIpv4
    ensures GetTcpAddrType(TcpAddr(Mapped(o), port, zone)) == AddrTypeIpv4
  {
    assert Is4In6(Mapped(o));
    assert Mapped(o)[12..16] == o;
  }

  /** `%v.%v.%v.%v` of the first four bytes; later bytes are ignored. The
      text reads back as those four bytes and is 7 to 15 characters long. */
  function BytesIp4ToString(ip: seq<byte>): (s: string)
    requires |ip| >= 4
    ensures ParseIPv4(s) == Some(ip[..4])
    ensures 7 <= |s| <= 15
  {
    Ipv4TextRoundTrip(ip[..4]);
    Ipv4StringLength(ip[..4]);
    Ipv4String(ip[..4])
  }

  /** The eight big-endian 16-bit groups of the first sixteen bytes. */
  function Groups6(ip: seq<byte>): (g: seq<string>)
    requires |ip| >= 16
    ensures |g| == 8
  {
    seq(8, i requires 0 <= i < 8 => Hex(Group(ip, i), true))
  }

  lemma NoColonInHex(n: nat)
    ensures ':' !in Hex(n, true)
  {
    var s := Hex(n, true);
    assert forall i :: 0 <= i < |s| ==> s[i] != ':';
  }

  /** `%X:%X:%X:%X:%X:%X:%X:%X` of the eight groups: split at the colons, the
      text has exactly eight fields, the i-th one being group i in upper-case
      hexadecimal with one to four digits and no leading zero (so no "::"). */
  function BytesIp6ToString(ip: seq<byte>): (s: string)
    requires |ip| >= 16
    ensures |Split(s, ':')| == 8
    ensures forall i :: 0 <= i < 8 ==>
      var f := Split(s, ':')[i];
      1 <= |f| <= 4 && AllHexDigits(f, true) && (|f| == 1 || f[0] != '0')
      && HexValue(f, true) == Group(ip, i)
  {
    var g := Groups6(ip);
    forall i | 0 <= i < 8
      ensures ':' !in g[i] && |g[i]| <= 4
    {
      NoColonInHex(Group(ip, i));
      assert Pow16(4) == 0x1_0000;
      HexLength(Group(ip, i), 4, true);
    }
    SplitJoin(g, ':');
    Join(g, ':')
  }

  /** Different addresses print differently: the text determines the first
      sixteen bytes. */
  lemma Ip6TextInjective(a: seq<byte>, b: seq<byte>)
    requires |a| >= 16 && |b| >= 16
    requires BytesIp6ToString(a) == BytesIp6ToString(b)
    ensures a[..16] == b[..16]
  {
    var s := BytesIp6ToString(a);
    forall k | 0 <= k < 16
      ensures a[k] == b[k]
    {
      var i := k / 2;
      assert Group(a, i) == HexValue(Split(s, ':')[i], true) == Group(b, i);
      BytesOfGroup(a[2 * i], a[2 * i + 1], b[2 * i], b[2 * i + 1]);
    }
  }

  lemma BytesOfGroup(x: byte, y: byte, u: byte, v: byte)
    requires x as nat * 256 + y as nat == u as nat * 256 + v as nat
    ensures x == u && y == v
  {
  }
}
