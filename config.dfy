/** internal/config/config.go: turning the command line's local address,
    remote address and comma-separated port list into a validated `Config`. */
module Config {
  import opened Wrappers
  import opened Text
  import opened NetAddr

  datatype ConfigError = ErrInvalidArgs | ErrInvalidParameter

  /** What the relay forwards: from the local address to the remote one, on
      each of the ports, in the order given. */
  datatype Config = Config(localAddress: Addr, remoteAddress: Addr, ports: seq<uint16>)
  {
    function Local(): Addr { localAddress }

    function Remote(): Addr { remoteAddress }

    function Ports(): seq<uint16> { ports }

    /** `{<local> -> <remote> for ports [p1 p2 ...]}`. */
    function String(): string
    {
      "{" + AddrString(localAddress) + " -> " + AddrString(remoteAddress) + " for ports " + PortsText(ports) + "}"
    }
  }

  /** `Config{}`: what every failure returns. */
  const ZeroConfig := Config(Invalid, Invalid, [])

  /** The port list as `%v` prints a `[]uint16`: decimals between brackets,
      separated by single spaces. */
  function PortsText(ports: seq<uint16>): string
  {
    "[" + Join(PortTexts(ports), ' ') + "]"
  }

  function PortTexts(ports: seq<uint16>): (t: seq<string>)
    ensures |t| == |ports|
  {
    seq(|ports|, i requires 0 <= i < |ports| => Decimal(ports[i] as nat))
  }

  /** One field of the port list, as the loop in `makeConfig` checks it: the
      field without surrounding white space, read by Atoi, must lie in 0..65535. */
  function ParsePort(field: string): Option<uint16>
  {
    match Atoi(TrimSpace(field))
    case None => None
    case Some(v) => if v < 0 || v > 0xFFFF then None else Some(v as uint16)
  }

  predicate PortsAccepted(fields: seq<string>)
  {
    forall i :: 0 <= i < |fields| ==> ParsePort(fields[i]).Some?
  }

  /** The port list: one port per field, in order, or None as soon as a
      field is rejected. */
  function ParsePorts(fields: seq<string>): (r: Option<seq<uint16>>)
    ensures r.Some? ==> |r.value| == |fields|
  {
    if fields == [] then Some([])
    else
      match ParsePort(fields[0])
      case None => None
      case Some(p) =>
        match ParsePorts(fields[1..])
        case None => None
        case Some(ps) => Some([p] + ps)
  }

  /** The port list is read exactly when every field is accepted, and then
      port i is what field i reads as. */
  lemma {:induction false} ParsedPorts(fields: seq<string>)
    ensures ParsePorts(fields).Some? <==> PortsAccepted(fields)
    ensures ParsePorts(fields).Some? ==>
      forall i :: 0 <= i < |fields| ==> ParsePort(fields[i]) == Some(ParsePorts(fields).value[i])
  {
    if fields != [] {
      var tail := fields[1..];
      ParsedPorts(tail);
      assert forall i :: 1 <= i < |fields| ==> fields[i] == tail[i - 1];
      if PortsAccepted(fields) {
        assert PortsAccepted(tail) by {
          forall i | 0 <= i < |tail|
            ensures ParsePort(tail[i]).Some?
          {
            assert tail[i] == fields[i + 1];
          }
        }
      }
      if ParsePorts(fields).Some? {
        var ps := ParsePorts(tail).value;
        assert ParsePorts(fields).value == [ParsePort(fields[0]).value] + ps;
      }
    }
  }

  /** The ports `done` read so far, ahead of the outcome `r` for the rest. */
  function Prefixed(done: seq<uint16>, r: Option<seq<uint16>>): Option<seq<uint16>>
  {
    if r.None? then None else Some(done + r.value)
  }

  /** What `makeConfig` returns: the zero Config with ErrInvalidParameter when
      either address or any port field is rejected, the parsed values otherwise. */
  function ParseConfig(localArg: string, remoteArg: string, portsArg: string,
                       parse6: string -> Option<Ip6>): Result<Config, ConfigError>
  {
    match ParseAddr(localArg, parse6)
    case None => Err(ErrInvalidParameter)
    case Some(lip) =>
      match ParseAddr(remoteArg, parse6)
      case None => Err(ErrInvalidParameter)
      case Some(rip) =>
        match ParsePorts(Split(portsArg, ','))
        case None => Err(ErrInvalidParameter)
        case Some(ports) => Ok(Config(lip, rip, ports))
  }

  /** One turn of the loop of `makeConfig` on field i: a rejected field
      rejects the whole list; an accepted one joins the ports read so far. */
  lemma PortsTurn(fields: seq<string>, i: nat, acc: seq<uint16>)
    requires i < |fields|
    ensures ParsePort(fields[i]).None? ==> Prefixed(acc, ParsePorts(fields[i..])) == None
    ensures ParsePort(fields[i]).Some? ==>
      Prefixed(acc, ParsePorts(fields[i..])) == Prefixed(acc + [ParsePort(fields[i]).value], ParsePorts(fields[i + 1..]))
  {
    assert fields[i..][0] == fields[i] && fields[i..][1..] == fields[i + 1..];
    var rest := ParsePorts(fields[i + 1..]);
    if ParsePort(fields[i]).Some? && rest.Some? {
      var v := ParsePort(fields[i]).value;
      assert acc + ([v] + rest.value) == (acc + [v]) + rest.value;
    }
  }

  /** The loop of `makeConfig`: one port per field, in order, stopping at
      the first field that is rejected. */
  method ReadPorts(fields: seq<string>) returns (ipPorts: Option<seq<uint16>>)
    ensures ipPorts == ParsePorts(fields)
  {
    var acc: seq<uint16> := [];
    assert fields[0..] == fields;
    assert ParsePorts(fields).Some? ==> [] + ParsePorts(fields).value == ParsePorts(fields).value;
    for i := 0 to |fields|
      invariant ParsePorts(fields) == Prefixed(acc, ParsePorts(fields[i..]))
    {
      PortsTurn(fields, i, acc);
      var ipPort := ParsePort(fields[i]);
      if ipPort.None? {
        return None;
      }
      acc := acc + [ipPort.value];
    }
    assert fields[|fields|..] == [] && acc + [] == acc;
    ipPorts := Some(acc);
  }

  /** `makeConfig`: both addresses are checked before any port; the loop
      appends one port per field and returns at the first bad field. */
  method MakeConfig(localArg: string, remoteArg: string, portsArg: string, parse6: string -> Option<Ip6>)
    returns (cfg: Config, err: Option<ConfigError>)
    ensures err.None? ==> ParseConfig(localArg, remoteArg, portsArg, parse6) == Ok(cfg)
    ensures err.Some? ==> ParseConfig(localArg, remoteArg, portsArg, parse6) == Err(err.value)
    ensures err.Some? ==> cfg == ZeroConfig
  {
    var lip := ParseAddr(localArg, parse6);
    if lip.None? {
      return ZeroConfig, Some(ErrInvalidParameter);
    }
    var rip := ParseAddr(remoteArg, parse6);
    if rip.None? {
      return ZeroConfig, Some(ErrInvalidParameter);
    }
    var ipPorts := ReadPorts(Split(portsArg, ','));
    if ipPorts.None? {
      return ZeroConfig, Some(ErrInvalidParameter);
    }
    cfg, err := Config(lip.value, rip.value, ipPorts.value), None;
  }

  /** The outcome of the command-line flag parse, which is not modelled
      further: a failure (such as `-h`) or the values of -l, -r and -p. */
  datatype FlagParse = FlagParseError | Flags(local: string, remote: string, ports: string)

  /** `NewConfigFromCmdLineArgs`: a flag-parse failure is ErrInvalidArgs with
      the zero Config; otherwise the result is `makeConfig`'s. */
  method NewConfigFromCmdLineArgs(parsed: FlagParse, parse6: string -> Option<Ip6>)
    returns (cfg: Config, err: Option<ConfigError>)
    ensures parsed.FlagParseError? ==> cfg == ZeroConfig && err == Some(ErrInvalidArgs)
    ensures parsed.Flags? && err.None? ==> ParseConfig(parsed.local, parsed.remote, parsed.ports, parse6) == Ok(cfg)
    ensures parsed.Flags? && err.Some? ==>
      cfg == ZeroConfig && ParseConfig(parsed.local, parsed.remote, parsed.ports, parse6) == Err(err.value)
  {
    if parsed.FlagParseError? {
      return ZeroConfig, Some(ErrInvalidArgs);
    }
    cfg, err := MakeConfig(parsed.local, parsed.remote, parsed.ports, parse6);
  }

  // ---------------------------------------------------------------------
  // What the parse promises
  // ---------------------------------------------------------------------

  /** On success the ports are one per comma-separated field, in order, each
      the trimmed field read as a decimal integer, and the addresses are the
      parsed ones. */
  lemma AcceptedConfig(localArg: string, remoteArg: string, portsArg: string, parse6: string -> Option<Ip6>)
    requires ParseConfig(localArg, remoteArg, portsArg, parse6).Ok?
    ensures var c := ParseConfig(localArg, remoteArg, portsArg, parse6).value;
      var fields := Split(portsArg, ',');
      && Some(c.Local()) == ParseAddr(localArg, parse6)
      && Some(c.Remote()) == ParseAddr(remoteArg, parse6)
      && |c.Ports()| == |fields|
      && forall i :: 0 <= i < |fields| ==> Atoi(TrimSpace(fields[i])) == Some(c.Ports()[i] as int)
  {
    var c := ParseConfig(localArg, remoteArg, portsArg, parse6).value;
    var fields := Split(portsArg, ',');
    ParsedPorts(fields);
    var ports := ParsePorts(fields).value;
    assert c.Ports() == ports;
    forall i | 0 <= i < |fields|
      ensures Atoi(TrimSpace(fields[i])) == Some(c.Ports()[i] as int)
    {
      AcceptedField(fields[i], ports[i]);
    }
  }

  /** An accepted field is the trimmed decimal text of its port. */
  lemma AcceptedField(field: string, p: uint16)
    requires ParsePort(field) == Some(p)
    ensures Atoi(TrimSpace(field)) == Some(p as int)
  {
  }

  /** Every failure is ErrInvalidParameter; it happens exactly when an address
      is rejected or some port field is not an integer in 0..65535. */
  lemma RejectedConfig(localArg: string, remoteArg: string, portsArg: string, parse6: string -> Option<Ip6>)
    ensures var r := ParseConfig(localArg, remoteArg, portsArg, parse6);
      var fields := Split(portsArg, ',');
      && (r.Err? ==> r.error == ErrInvalidParameter)
      && (r.Err? <==>
            || ParseAddr(localArg, parse6).None?
            || ParseAddr(remoteArg, parse6).None?
            || !PortsAccepted(fields))
  {
    ParsedPorts(Split(portsArg, ','));
  }

  /** An unreadable local address fails whatever the rest of the input is. */
  lemma LocalCheckedFirst(localArg: string, remoteArg: string, portsArg: string, parse6: string -> Option<Ip6>)
    requires ParseAddr(localArg, parse6).None?
    ensures ParseConfig(localArg, remoteArg, portsArg, parse6) == Err(ErrInvalidParameter)
  {
  }

  /** An IPv4 local or remote address that is accepted prints back as exactly
      the text it was read from. */
  lemma {:induction false} Ipv4AddressesPrintBack(localArg: string, remoteArg: string, portsArg: string,
                                                   parse6: string -> Option<Ip6>)
    requires ParseConfig(localArg, remoteArg, portsArg, parse6).Ok?
    requires FirstSpecial(localArg) == Some('.') && FirstSpecial(remoteArg) == Some('.')
    ensures var c := ParseConfig(localArg, remoteArg, portsArg, parse6).value;
      AddrString(c.Local()) == localArg && AddrString(c.Remote()) == remoteArg
  {
    Ipv4TextCanonical(localArg);
    Ipv4TextCanonical(remoteArg);
  }

  /** Every accepted port, printed in decimal with any surrounding white
      space, is read back as itself. */
  lemma PortFieldRoundTrip(p: uint16, before: string, after: string)
    requires forall i :: 0 <= i < |before| ==> IsSpace(before[i])
    requires forall i :: 0 <= i < |after| ==> IsSpace(after[i])
    ensures ParsePort(before + Decimal(p as nat) + after) == Some(p)
  {
    var d := Decimal(p as nat);
    assert !IsSpace(d[0]) && !IsSpace(d[|d| - 1]);
    assert before + d + after == before + (d + after);
    TrimLeftSpaces(before, d + after);
    TrimRightSpaces(d, after);
    assert TrimSpace(before + d + after) == d;
    AtoiDecimal(p as nat);
  }

  /** The printed port list reads back as the ports, in order. */
  lemma PortsTextRoundTrip(ports: seq<uint16>)
    requires ports != []
    ensures var t := PortsText(ports);
      var fields := Split(t[1..|t| - 1], ' ');
      t[0] == '[' && t[|t| - 1] == ']' && |fields| == |ports|
      && forall i :: 0 <= i < |ports| ==> Atoi(fields[i]) == Some(ports[i] as int)
  {
    var ts := PortTexts(ports);
    forall i | 0 <= i < |ts|
      ensures ' ' !in ts[i]
    {
      var d := ts[i];
      assert forall k :: 0 <= k < |d| ==> d[k] != ' ';
    }
    SplitJoin(ts, ' ');
    var t := PortsText(ports);
    assert t[1..|t| - 1] == Join(ts, ' ');
    forall i | 0 <= i < |ports|
      ensures Atoi(ts[i]) == Some(ports[i] as int)
    {
      AtoiDecimal(ports[i] as nat);
    }
  }

  /** The printed port list determines the ports: distinct lists print
      differently. */
  lemma PortsTextInjective(a: seq<uint16>, b: seq<uint16>)
    requires PortsText(a) == PortsText(b)
    ensures a == b
  {
    PortsTextFields(a);
    PortsTextFields(b);
    assert |a| == |b|;
    assert forall i :: 0 <= i < |a| ==> a[i] == b[i];
  }

  /** The fields between the brackets of a printed port list: one empty
      field for no ports, otherwise one per port reading back as it. */
  lemma PortsTextFields(ports: seq<uint16>)
    ensures var t := PortsText(ports);
      var fields := Split(t[1..|t| - 1], ' ');
      && |fields| == (if ports == [] then 1 else |ports|)
      && (ports == [] ==> Atoi(fields[0]).None?)
      && forall i :: 0 <= i < |ports| ==> Atoi(fields[i]) == Some(ports[i] as int)
  {
    var t := PortsText(ports);
    if ports == [] {
      assert t[1..|t| - 1] == "";
    } else {
      PortsTextRoundTrip(ports);
    }
  }

  /** An IPv4 address prints without white space. */
  lemma NoSpaceInIpv4(o: Octets4)
    ensures ' ' !in Ipv4String(o)
  {
    var ds := [Decimal(o[0] as nat), Decimal(o[1] as nat), Decimal(o[2] as nat), Decimal(o[3] as nat)];
    forall k | 0 <= k < 4
      ensures ' ' !in ds[k]
    {
      var d := ds[k];
      assert forall i :: 0 <= i < |d| ==> d[i] != ' ';
    }
    Join4(ds[0], ds[1], ds[2], ds[3], '.');
  }

  /** Text that reaches its first space at the same place in both spellings
      splits there into the same two parts. */
  lemma SplitAtFirstSpace(a: string, x: string, b: string, y: string)
    requires ' ' !in a && ' ' !in b
    requires a + " " + x == b + " " + y
    ensures a == b && x == y
  {
    var s := a + " " + x;
    assert s[|a|] == ' ' && s[|b|] == ' ';
    assert forall i :: 0 <= i < |a| ==> s[i] == a[i];
    assert forall i :: 0 <= i < |b| ==> s[i] == b[i];
    assert |a| == |b|;
    assert a == s[..|a|] == b;
    assert x == s[|a| + 1..] == y;
  }

  /** The text `Config.String` builds from space-free address texts splits
      back into its three parts. */
  lemma ConfigTextParts(l1: string, r1: string, p1: string, l2: string, r2: string, p2: string)
    requires ' ' !in l1 && ' ' !in r1 && ' ' !in l2 && ' ' !in r2
    requires "{" + l1 + " -> " + r1 + " for ports " + p1 + "}" == "{" + l2 + " -> " + r2 + " for ports " + p2 + "}"
    ensures l1 == l2 && r1 == r2 && p1 == p2
  {
    ConfigTextAfterBrace(l1, r1, p1);
    ConfigTextAfterBrace(l2, r2, p2);
    SplitAtFirstSpace(l1, ArrowText(r1, p1), l2, ArrowText(r2, p2));
    ArrowTextAfterArrow(r1, p1);
    ArrowTextAfterArrow(r2, p2);
    SplitAtFirstSpace(r1, PortsSuffix(p1), r2, PortsSuffix(p2));
    PortsSuffixInside(p1);
    PortsSuffixInside(p2);
  }

  function ArrowText(r: string, p: string): string { "-> " + r + " for ports " + p + "}" }

  function PortsSuffix(p: string): string { "for ports " + p + "}" }

  lemma ConfigTextAfterBrace(l: string, r: string, p: string)
    ensures ("{" + l + " -> " + r + " for ports " + p + "}")[1..] == l + " " + ArrowText(r, p)
  {
  }

  lemma ArrowTextAfterArrow(r: string, p: string)
    ensures ArrowText(r, p)[3..] == r + " " + PortsSuffix(p)
  {
  }

  lemma PortsSuffixInside(p: string)
    ensures var u := PortsSuffix(p); u[10..|u| - 1] == p
  {
  }

  /** `Config.String` of a configuration with IPv4 addresses gives back
      every part: two such configurations that print alike are equal. */
  lemma Ipv4ConfigTextInjective(c1: Config, c2: Config)
    requires c1.Local().V4? && c1.Remote().V4? && c2.Local().V4? && c2.Remote().V4?
    requires c1.String() == c2.String()
    ensures c1 == c2
  {
    NoSpaceInIpv4(c1.Local().octets);
    NoSpaceInIpv4(c1.Remote().octets);
    NoSpaceInIpv4(c2.Local().octets);
    NoSpaceInIpv4(c2.Remote().octets);
    ConfigTextParts(AddrString(c1.Local()), AddrString(c1.Remote()), PortsText(c1.Ports()),
                    AddrString(c2.Local()), AddrString(c2.Remote()), PortsText(c2.Ports()));
    Ipv4TextRoundTrip(c1.Local().octets);
    Ipv4TextRoundTrip(c2.Local().octets);
    Ipv4TextRoundTrip(c1.Remote().octets);
    Ipv4TextRoundTrip(c2.Remote().octets);
    PortsTextInjective(c1.Ports(), c2.Ports());
  }

  // ---------------------------------------------------------------------
  // Round trips, and the cases of the package's table test
  // ---------------------------------------------------------------------

  /** The fields of a port list: each port in decimal after some white space. */
  function PaddedFields(ports: seq<uint16>, pads: seq<string>): (fs: seq<string>)
    requires |pads| == |ports|
    ensures |fs| == |ports|
  {
    seq(|ports|, i requires 0 <= i < |ports| => pads[i] + Decimal(ports[i] as nat))
  }

  /** A non-empty list of ports written in decimal, separated by commas with
      any white space before each number, is read back as those ports. */
  lemma PortListRoundTrip(ports: seq<uint16>, pads: seq<string>)
    requires |ports| >= 1 && |pads| == |ports|
    requires forall i :: 0 <= i < |pads| ==> AllSpace(pads[i])
    ensures ParsePorts(Split(Join(PaddedFields(ports, pads), ','), ',')) == Some(ports)
  {
    var fs := PaddedFields(ports, pads);
    forall i | 0 <= i < |fs|
      ensures ',' !in fs[i] && ParsePort(fs[i]) == Some(ports[i])
    {
      NoDotInDecimal(ports[i] as nat);
      assert fs[i] == pads[i] + Decimal(ports[i] as nat);
      assert forall k :: 0 <= k < |fs[i]| ==> fs[i][k] != ',' by {
        forall k | 0 <= k < |fs[i]|
          ensures fs[i][k] != ','
        {
          if k < |pads[i]| {
            assert IsSpace(pads[i][k]);
          } else {
            assert fs[i][k] == Decimal(ports[i] as nat)[k - |pads[i]|];
            assert IsDigit(fs[i][k]);
          }
        }
      }
      PortFieldRoundTrip(ports[i], pads[i], "");
      assert pads[i] + Decimal(ports[i] as nat) + "" == fs[i];
    }
    SplitJoin(fs, ',');
    assert PortsAccepted(fs);
    ParsedPorts(fs);
    assert ParsePorts(fs).value == ports;
  }

  /** Two IPv4 addresses in dotted decimal and such a port list make the
      Config of those addresses and ports. */
  lemma Ipv4ConfigRoundTrip(local: Octets4, remote: Octets4, ports: seq<uint16>, pads: seq<string>,
                            parse6: string -> Option<Ip6>)
    requires |ports| >= 1 && |pads| == |ports|
    requires forall i :: 0 <= i < |pads| ==> AllSpace(pads[i])
    ensures ParseConfig(Ipv4String(local), Ipv4String(remote), Join(PaddedFields(ports, pads), ','), parse6)
         == Ok(Config(V4(local), V4(remote), ports))
  {
    Ipv4AddrRoundTrip(local, parse6);
    Ipv4AddrRoundTrip(remote, parse6);
    PortListRoundTrip(ports, pads);
  }

  /** A port above 65535 is rejected, however it is padded. */
  lemma PortOutOfRange(p: nat, pad: string)
    requires p > 0xFFFF && AllSpace(pad)
    ensures ParsePort(pad + Decimal(p)).None?
  {
    var d := Decimal(p);
    TrimmedField(pad, d);
    if p <= MaxInt64 {
      AtoiDecimal(p);
    } else {
      assert Atoi(d).None?;
    }
  }

  /** A field whose first non-blank character is neither a digit nor a sign
      is rejected. */
  lemma PortNotANumber(pad: string, f: string)
    requires AllSpace(pad) && f != [] && !IsSpace(f[0]) && !IsSpace(f[|f| - 1])
    requires !IsDigit(f[0]) && f[0] != '+' && f[0] != '-'
    ensures ParsePort(pad + f).None?
  {
    TrimmedField(pad, f);
    AtoiRejectsNonDigit(f, 0);
  }

  /** A field that is empty or only white space is rejected. */
  lemma BlankFieldRejected(pad: string)
    requires AllSpace(pad)
    ensures ParsePort(pad).None?
  {
    TrimLeftShape(pad);
  }

  /** An empty port list, or one ending in a comma, leaves an empty field and
      is rejected. */
  lemma EmptyFieldRejected(localArg: string, remoteArg: string, portsArg: string, parse6: string -> Option<Ip6>)
    ensures ParseConfig(localArg, remoteArg, "", parse6) == Err(ErrInvalidParameter)
    ensures ParseConfig(localArg, remoteArg, portsArg + ",", parse6) == Err(ErrInvalidParameter)
  {
    BlankFieldRejected("");
    assert Split("", ',') == [""];
    assert !PortsAccepted([""]);
    ParsedPorts([""]);
    SplitTrailingSeparator(portsArg, ',');
    var fs := Split(portsArg + ",", ',');
    assert fs[|fs| - 1] == "";
    assert !PortsAccepted(fs);
    ParsedPorts(fs);
  }
}
