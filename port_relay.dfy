/** internal/relay/relay.go: one pipeline per configured port, the address
    text each side of a pipeline uses, and what the connection handler of a
    pipeline does with an accepted connection. */
module PortRelay {
  import opened Wrappers
  import opened Text
  import opened NetAddr
  import opened Config
  import opened Io
  import opened PacketRelay

  /** `makeAddr`: the address and port as `netip.AddrPort` prints them. A
      valid address ends in a colon and the port in decimal; an invalid one
      prints no port at all. */
  function MakeAddr(addr: Addr, port: uint16): (s: string)
    ensures addr.Invalid? <==> s == "invalid AddrPort"
    ensures !addr.Invalid? ==> |s| > |Decimal(port as nat)|
    ensures !addr.Invalid? ==> s[|s| - |Decimal(port as nat)| - 1..] == ":" + Decimal(port as nat)
  {
    EndsInPort(addr, port);
    AddrPort(addr, port).String()
  }

  lemma EndsInPort(addr: Addr, port: uint16)
    ensures var s := AddrPort(addr, port).String();
      var d := Decimal(port as nat);
      && (addr.Invalid? <==> s == "invalid AddrPort")
      && (!addr.Invalid? ==> |s| > |d| && s[|s| - |d| - 1..] == ":" + d)
  {
    if !addr.Invalid? {
      var d := Decimal(port as nat);
      var h := if addr.V4? then Ipv4String(addr.octets) + ":" else "[" + AddrString(addr) + "]:";
      assert AddrPort(addr, port).String() == h + d;
      ColonDigitsSuffix(h, d);
    }
  }

  /** Text ending in a colon and a decimal number ends in a digit, so it is
      never the invalid address text. */
  lemma ColonDigitsSuffix(h: string, d: string)
    requires |h| > 0 && h[|h| - 1] == ':' && Canonical(d)
    ensures var s := h + d;
      && |s| > |d| && s[|s| - |d| - 1..] == ":" + d
      && s != "invalid AddrPort"
  {
    var s := h + d;
    assert s[|s| - |d| - 1..] == [h[|h| - 1]] + d;
    assert s[|s| - 1] == d[|d| - 1];
    assert "invalid AddrPort"[15] == 't';
  }

  /** For any valid address, the text after the final colon is the port in
      decimal, which reads back as the port. */
  lemma PortAfterLastColon(addr: Addr, port: uint16)
    requires !addr.Invalid?
    ensures var s := MakeAddr(addr, port);
      var d := Decimal(port as nat);
      && |d| < |s| && s[|s| - |d| - 1] == ':' && s[|s| - |d|..] == d
      && ':' !in d && Atoi(d) == Some(port as int)
  {
    var s := MakeAddr(addr, port);
    var d := Decimal(port as nat);
    NoDotInDecimal(port as nat);
    AtoiDecimal(port as nat);
    match addr
    case V4(o) =>
      assert s == (Ipv4String(o) + ":") + d;
    case V6(_, _) =>
      assert s == ("[" + AddrString(addr) + "]:") + d;
  }

  lemma NoColonInIpv4(o: Octets4)
    ensures ':' !in Ipv4String(o)
  {
    NoDotInDecimal(o[0] as nat);
    NoDotInDecimal(o[1] as nat);
    NoDotInDecimal(o[2] as nat);
    NoDotInDecimal(o[3] as nat);
    Join4(Decimal(o[0] as nat), Decimal(o[1] as nat), Decimal(o[2] as nat), Decimal(o[3] as nat), '.');
  }

  /** An IPv4 endpoint is the address text, one colon and the port: split at
      the colon, the two parts read back as the address and the port. */
  lemma Ipv4EndpointRoundTrip(o: Octets4, port: uint16, parse6: string -> Option<Ip6>)
    ensures var parts := Split(MakeAddr(V4(o), port), ':');
      && parts == [Ipv4String(o), Decimal(port as nat)]
      && ParseAddr(parts[0], parse6) == Some(V4(o))
      && Atoi(parts[1]) == Some(port as int)
  {
    var h := Ipv4String(o);
    var d := Decimal(port as nat);
    NoColonInIpv4(o);
    NoDotInDecimal(port as nat);
    SplitAfterField(h, ':', d);
    SplitNoSeparator(d, ':');
    Ipv4AddrRoundTrip(o, parse6);
    AtoiDecimal(port as nat);
  }

  /** A listener address and its forwarding target, which share one port,
      served by their own packet relay. The texts `runRelay` is given are
      `local.String()` and `remote.String()`. */
  datatype Pipeline = Pipeline(relay: PacketRelay, local: AddrPort, remote: AddrPort)

  /** `Run`: for each port, in order, a new packet relay and a pipeline from
      the local address to the remote one on that port, counted into a wait
      group; the pipelines are then run to their end, each one counting
      itself out, and `Run` returns after the wait group's `Wait`. */
  method Run(cfg: Config) returns (pipelines: seq<Pipeline>)
    ensures |pipelines| == |cfg.Ports()|
    ensures forall i :: 0 <= i < |pipelines| ==>
      pipelines[i].local == AddrPort(cfg.Local(), cfg.Ports()[i]) && pipelines[i].remote == AddrPort(cfg.Remote(), cfg.Ports()[i])
    ensures forall i :: 0 <= i < |pipelines| ==> fresh(pipelines[i].relay)
    ensures forall i, j :: 0 <= i < j < |pipelines| ==> pipelines[i].relay != pipelines[j].relay
  {
    var wg := new WaitGroup();
    var ports := cfg.Ports();
    pipelines := [];
    for k := 0 to |ports|
      invariant fresh(wg) && wg.counter == k && |pipelines| == k
      invariant forall i :: 0 <= i < k ==> pipelines[i].local == AddrPort(cfg.Local(), ports[i])
      invariant forall i :: 0 <= i < k ==> pipelines[i].remote == AddrPort(cfg.Remote(), ports[i])
      invariant forall i :: 0 <= i < k ==> fresh(pipelines[i].relay)
      invariant forall i, j :: 0 <= i < j < k ==> pipelines[i].relay != pipelines[j].relay
    {
      var pry := new PacketRelay();
      var local, remote := AddrPort(cfg.Local(), ports[k]), AddrPort(cfg.Remote(), ports[k]);
      wg.Add(1);
      pipelines := pipelines + [Pipeline(pry, local, remote)];
    }
    // The deferred `wg.Done()` of each pipeline's goroutine; `runRelay`
    // itself, which runs until the context ends, is not run here.
    for k := 0 to |pipelines|
      invariant wg.counter == |pipelines| - k
    {
      wg.Done();
    }
    wg.Wait();
  }

  /** Both ends of a pipeline `Run` builds for valid addresses are printed
      with the same port after their final colon. */
  lemma SamePortBothEnds(cfg: Config, p: Pipeline, i: nat)
    requires !cfg.Local().Invalid? && !cfg.Remote().Invalid?
    requires i < |cfg.Ports()|
    requires p.local == AddrPort(cfg.Local(), cfg.Ports()[i]) && p.remote == AddrPort(cfg.Remote(), cfg.Ports()[i])
    ensures var d := Decimal(cfg.Ports()[i] as nat);
      var l := p.local.String();
      var r := p.remote.String();
      && |d| < |l| && |d| < |r|
      && l[|l| - |d|..] == r[|r| - |d|..] == d
      && l[|l| - |d| - 1] == r[|r| - |d| - 1] == ':'
  {
    PortAfterLastColon(cfg.Local(), cfg.Ports()[i]);
    PortAfterLastColon(cfg.Remote(), cfg.Ports()[i]);
  }

  /** What became of an accepted connection. */
  datatype Handled = DialFailed | Relayed(ich: BufChan, och: BufChan, started: seq<Task>)

  /** The handler `runRelay` gives the listener, for one accepted
      connection `inConn`. `dialed` is the outcome of the outgoing dial: None
      when it failed. On failure the deferred Close shuts `inConn` and nothing
      is started. Otherwise the two connections are relayed; then the cancel
      helper counts itself out of its wait group and closes both connections;
      the handler waits for it, and its deferred Closes run last. */
  method HandleConn(pry: PacketRelay, inConn: Conn, dialed: Option<Conn>) returns (h: Handled)
    requires pry.wg.counter == 0
    requires dialed.Some? ==> dialed.value != inConn
    modifies pry.wg, inConn, if dialed.Some? then {dialed.value} else {}
    ensures inConn.closed
    ensures dialed.None? <==> h.DialFailed?
    ensures dialed.None? ==>
      && inConn.writes == old(inConn.writes) && inConn.readScript == old(inConn.readScript)
      && pry.wg.counter == 0
    ensures dialed.Some? ==>
      var outConn := dialed.value;
      && outConn.closed && pry.wg.counter == 0
      && h.started == Wiring(inConn, outConn, h.ich, h.och) && CrossWired(h.started)
      && outConn.writes == old(outConn.writes) +
           WriterRun(PumpedChunks(old(inConn.readScript), old(inConn.closed)), old(outConn.writeScript), old(outConn.closed)).payloads
      && inConn.writes == old(inConn.writes) +
           WriterRun(PumpedChunks(old(outConn.readScript), old(outConn.closed)), old(inConn.writeScript), old(inConn.closed)).payloads
  {
    if dialed.None? {
      inConn.Close();
      return DialFailed;
    }
    var outConn := dialed.value;
    var wg := new WaitGroup();
    wg.Add(1);
    var ich, och, started := pry.RealyPackets(inConn, outConn);
    // cancel(): the helper wakes up, counts itself out, and its deferred
    // Closes run, the last registered first.
    wg.Done();
    outConn.Close();
    inConn.Close();
    wg.Wait();
    // The handler's own deferred Closes.
    outConn.Close();
    inConn.Close();
    h := Relayed(ich, och, started);
  }
}
