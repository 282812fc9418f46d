/** IP addresses as Go's `net/netip` and `net` packages read and print them.
    The IPv4 text grammar and every printed form are modelled in full; the
    IPv6 text grammar is supplied by the caller as a function. */
module NetAddr {
  import opened Wrappers
  import opened Text

  type Octets4 = s: seq<byte> | |s| == 4 witness [0, 0, 0, 0]
  type Octets16 = s: seq<byte> | |s| == 16 witness seq(16, _ => 0)

  /** `netip.Addr`: the zero value (not an address), an IPv4 address, or an
      IPv6 address with a zone that is empty when there is none. */
  datatype Addr = Invalid | V4(octets: Octets4) | V6(bytes: Octets16, zone: string)

  /** What the IPv6 text grammar yields for one address. */
  datatype Ip6 = Ip6(bytes: Octets16, zone: string)

  // ---------------------------------------------------------------------
  // IPv4 text
  // ---------------------------------------------------------------------

  /** One field of an IPv4 address: 0 to 255 in decimal without a leading zero. */
  predicate OctetText(f: string) { Canonical(f) && DigitsValue(f) <= 255 }

  /** netip's IPv4 grammar: exactly four dot-separated octet fields. */
  function ParseIPv4(s: string): Option<Octets4>
  {
    var fields := Split(s, '.');
    if |fields| == 4 && forall i :: 0 <= i < 4 ==> OctetText(fields[i]) then
      Some([DigitsValue(fields[0]) as byte, DigitsValue(fields[1]) as byte,
            DigitsValue(fields[2]) as byte, DigitsValue(fields[3]) as byte])
    else None
  }

  /** The four octets in decimal joined by dots (netip, and `%v.%v.%v.%v`). */
  function Ipv4String(o: Octets4): string
  {
    Join([Decimal(o[0] as nat), Decimal(o[1] as nat), Decimal(o[2] as nat), Decimal(o[3] as nat)], '.')
  }

  lemma Ipv4StringParts(o: Octets4)
    ensures Ipv4String(o) == Decimal(o[0] as nat) + "." + Decimal(o[1] as nat) + "."
                             + Decimal(o[2] as nat) + "." + Decimal(o[3] as nat)
  {
    Join4(Decimal(o[0] as nat), Decimal(o[1] as nat), Decimal(o[2] as nat), Decimal(o[3] as nat), '.');
  }

  lemma NoDotInDecimal(n: nat)
    ensures '.' !in Decimal(n) && ':' !in Decimal(n)
  {
    var s := Decimal(n);
    assert forall i :: 0 <= i < |s| ==> s[i] != '.' && s[i] != ':';
  }

  /** Printed IPv4 text reads back as the same address. */
  lemma Ipv4TextRoundTrip(o: Octets4)
    ensures ParseIPv4(Ipv4String(o)) == Some(o)
  {
    var ds := [Decimal(o[0] as nat), Decimal(o[1] as nat), Decimal(o[2] as nat), Decimal(o[3] as nat)];
    NoDotInDecimal(o[0] as nat);
    NoDotInDecimal(o[1] as nat);
    NoDotInDecimal(o[2] as nat);
    NoDotInDecimal(o[3] as nat);
    SplitJoin(ds, '.');
    var f := Split(Ipv4String(o), '.');
    assert f == ds;
    assert forall i :: 0 <= i < 4 ==> OctetText(f[i]) && DigitsValue(f[i]) == o[i] as nat;
    var r := [DigitsValue(f[0]) as byte, DigitsValue(f[1]) as byte, DigitsValue(f[2]) as byte, DigitsValue(f[3]) as byte];
    assert r == o;
  }

  /** Accepted IPv4 text is exactly the text the address prints as: netip
      accepts no leading zeros, so every accepted spelling is the canonical one. */
  lemma Ipv4TextCanonical(s: string)
    requires ParseIPv4(s).Some?
    ensures Ipv4String(ParseIPv4(s).value) == s
  {
    var f := Split(s, '.');
    var o := ParseIPv4(s).value;
    forall i | 0 <= i < 4
      ensures Decimal(o[i] as nat) == f[i]
    {
      DecimalOfCanonical(f[i]);
    }
    assert [Decimal(o[0] as nat), Decimal(o[1] as nat), Decimal(o[2] as nat), Decimal(o[3] as nat)] == f;
  }

  /** IPv4 text is seven to fifteen characters long. */
  lemma Ipv4StringLength(o: Octets4)
    ensures 7 <= |Ipv4String(o)| <= 15
  {
    assert Pow10(3) == 1000;
    DecimalLength(o[0] as nat, 3);
    DecimalLength(o[1] as nat, 3);
    DecimalLength(o[2] as nat, 3);
    DecimalLength(o[3] as nat, 3);
    Ipv4StringParts(o);
  }

  // ---------------------------------------------------------------------
  // netip.ParseAddr
  // ---------------------------------------------------------------------

  /** The first of '.', ':' and '%' in `s`, which decides how netip reads it. */
  function FirstSpecial(s: string): Option<char>
  {
    if s == [] then None
    else if s[0] == '.' || s[0] == ':' || s[0] == '%' then Some(s[0])
    else FirstSpecial(s[1..])
  }

  /** `netip.ParseAddr`: IPv4 text when a dot comes first, IPv6 text (read by
      `parse6`) when a colon comes first, an error otherwise. */
  function ParseAddr(s: string, parse6: string -> Option<Ip6>): Option<Addr>
  {
    match FirstSpecial(s)
    case Some('.') =>
      (match ParseIPv4(s) case Some(o) => Some(V4(o)) case None => None)
    case Some(':') =>
      (match parse6(s) case Some(a) => Some(V6(a.bytes, a.zone)) case None => None)
    case _ => None
  }

  lemma {:induction false} FirstSpecialAfterDigits(d: string, rest: string)
    requires AllDigits(d)
    ensures FirstSpecial(d + "." + rest) == Some('.')
  {
    if d != [] {
      assert (d + "." + rest)[1..] == d[1..] + "." + rest;
      FirstSpecialAfterDigits(d[1..], rest);
    }
  }

  /** ParseAddr reads printed IPv4 text back as the same address. */
  lemma Ipv4AddrRoundTrip(o: Octets4, parse6: string -> Option<Ip6>)
    ensures ParseAddr(Ipv4String(o), parse6) == Some(V4(o))
  {
    Ipv4StringParts(o);
    var d := Decimal(o[0] as nat);
    var rest := Decimal(o[1] as nat) + "." + Decimal(o[2] as nat) + "." + Decimal(o[3] as nat);
    assert Ipv4String(o) == d + "." + rest;
    FirstSpecialAfterDigits(d, rest);
    Ipv4TextRoundTrip(o);
  }

  /** IPv4 text with a port attached is not an address. */
  lemma Ipv4WithPortRejected(o: Octets4, port: uint16, parse6: string -> Option<Ip6>)
    ensures ParseAddr(Ipv4String(o) + ":" + Decimal(port as nat), parse6).None?
  {
    DigitsWithPortRejected(Decimal(o[0] as nat), Decimal(o[1] as nat), Decimal(o[2] as nat), Decimal(o[3] as nat),
                           Decimal(port as nat), parse6);
  }

  /** Four dot-separated digit fields followed by a colon and more digits are
      not an address: the colon lands inside the last field. */
  lemma DigitsWithPortRejected(d0: string, d1: string, d2: string, d3: string, p: string,
                               parse6: string -> Option<Ip6>)
    requires AllDigits(d0) && AllDigits(d1) && AllDigits(d2) && AllDigits(d3) && AllDigits(p)
    ensures ParseAddr(Join([d0, d1, d2, d3], '.') + ":" + p, parse6).None?
  {
    assert !IsDigit('.') && !IsDigit(':');
    var last := d3 + ":" + p;
    Join4(d0, d1, d2, last, '.');
    Join4(d0, d1, d2, d3, '.');
    var s := Join([d0, d1, d2, d3], '.') + ":" + p;
    assert s == d0 + "." + (d1 + "." + d2 + "." + last);
    FirstSpecialAfterDigits(d0, d1 + "." + d2 + "." + last);
    assert '.' !in last by {
      forall k | 0 <= k < |last|
        ensures last[k] != '.'
      {
        if k < |d3| {
          assert last[k] == d3[k];
        } else if k > |d3| {
          assert last[k] == p[k - |d3| - 1];
        }
      }
    }
    assert Join([d0, d1, d2, last], '.') == s;
    assert last[|d3|] == ':';
    FourFieldsRejected(d0, d1, d2, last, 3);
  }

  /** Dotted digit text with a field worth more than 255 is not an address,
      whatever the other fields and however many leading zeros it has. */
  lemma OctetTooLargeRejected(a: string, b: string, c: string, d: string, k: nat)
    requires AllDigits(a) && AllDigits(b) && AllDigits(c) && AllDigits(d)
    requires k < 4 && DigitsValue([a, b, c, d][k]) > 255
    ensures ParseIPv4(Join([a, b, c, d], '.')).None?
  {
    assert IsDigit('0') && !IsDigit('.');
    FourFieldsRejected(a, b, c, d, k);
  }

  /** Four dot-free fields joined by dots, one of which is not an octet, are
      not IPv4 text. */
  lemma FourFieldsRejected(a: string, b: string, c: string, d: string, k: nat)
    requires '.' !in a && '.' !in b && '.' !in c && '.' !in d
    requires k < 4 && !OctetText([a, b, c, d][k])
    ensures ParseIPv4(Join([a, b, c, d], '.')).None?
  {
    SplitJoin4(a, b, c, d, '.');
    RejectedField(Join([a, b, c, d], '.'), k);
  }

  lemma RejectedField(s: string, k: nat)
    requires k < |Split(s, '.')| && !OctetText(Split(s, '.')[k])
    ensures ParseIPv4(s).None?
  {
  }

  // ---------------------------------------------------------------------
  // Printing: netip.Addr.String and netip.AddrPort.String
  // ---------------------------------------------------------------------

  /** The i-th big-endian 16-bit group of an IPv6 address. */
  function Group(b: seq<byte>, i: nat): (g: nat)
    requires 2 * i + 1 < |b|
    ensures g < 0x1_0000
  {
    b[2 * i] as nat * 256 + b[2 * i + 1] as nat
  }

  /** `::ffff:a.b.c.d`, an IPv4 address carried in IPv6 form. */
  predicate Is4In6(b: seq<byte>)
    requires |b| == 16
  {
    (forall i :: 0 <= i < 10 ==> b[i] == 0) && b[10] == 0xff && b[11] == 0xff
  }

  /** The end of the run of zero groups starting at group i. */
  function ZeroRunEnd(b: Octets16, i: nat): (j: nat)
    requires i <= 8
    ensures i <= j <= 8
    decreases 8 - i
  {
    if i == 8 || Group(b, i) != 0 then i else ZeroRunEnd(b, i + 1)
  }

  /** A zero run as netip records it: 255/255 for none, else at least two groups. */
  predicate RunShape(zs: nat, ze: nat) { (zs == 255 && ze == 255) || zs + 2 <= ze <= 8 }

  /** netip's scan for the first longest run of two or more zero groups. */
  function LongestZeroRun(b: Octets16, i: nat, zs: nat, ze: nat): (r: (nat, nat))
    requires i <= 8 && RunShape(zs, ze)
    ensures RunShape(r.0, r.1)
    decreases 8 - i
  {
    if i == 8 then (zs, ze)
    else
      var j := ZeroRunEnd(b, i);
      if j - i >= 2 && j - i > ze - zs then LongestZeroRun(b, i + 1, i, j)
      else LongestZeroRun(b, i + 1, zs, ze)
  }

  /** The groups from i on in lower-case hexadecimal, the zero run as "::". */
  function Render6(b: Octets16, i: nat, zs: nat, ze: nat): string
    requires i <= 8 && RunShape(zs, ze)
    decreases 8 - i
  {
    if i == 8 then ""
    else if i == zs then
      "::" + (if ze == 8 then "" else Hex(Group(b, ze), false) + Render6(b, ze + 1, zs, ze))
    else
      (if i > 0 then ":" else "") + Hex(Group(b, i), false) + Render6(b, i + 1, zs, ze)
  }

  function ZoneSuffix(zone: string): string { if zone == "" then "" else "%" + zone }

  /** `netip.Addr.String`. */
  function AddrString(a: Addr): string
  {
    match a
    case Invalid => "invalid IP"
    case V4(o) => Ipv4String(o)
    case V6(b, zone) =>
      if Is4In6(b) then "::ffff:" + Ipv4String(b[12..16]) + ZoneSuffix(zone)
      else
        var run := LongestZeroRun(b, 0, 255, 255);
        Render6(b, 0, run.0, run.1) + ZoneSuffix(zone)
  }

  /** `netip.AddrPort`, as `netip.AddrPortFrom(addr, port)` builds it. */
  datatype AddrPort = AddrPort(addr: Addr, port: uint16)
  {
    /** `AddrPort.String`. */
    function String(): string
    {
      match addr
      case Invalid => "invalid AddrPort"
      case V4(o) => Ipv4String(o) + ":" + Decimal(port as nat)
      case V6(_, _) => "[" + AddrString(addr) + "]:" + Decimal(port as nat)
    }
  }

  // ---------------------------------------------------------------------
  // net.IP.To4
  // ---------------------------------------------------------------------

  /** `net.IP.To4`: the IPv4 form of a 4-byte address or of a 16-byte
      `::ffff:a.b.c.d` address, nil (None) for anything else. */
  function To4(ip: seq<byte>): (r: Option<seq<byte>>)
    ensures r.Some? ==> |ip| >= 4 && |r.value| == 4 && r.value == ip[|ip| - 4..]
  {
    if |ip| == 4 then Some(ip)
    else if |ip| == 16 && Is4In6(ip) then Some(ip[12..16])
    else None
  }
}
