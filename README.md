# grelay core in Dafny

grelay is a TCP port-forwarding relay. It is started with a local address, a
remote address and a comma-separated list of ports. For every port it listens
on `local:port`. For every accepted connection it dials `remote:port`. Then it
copies bytes in both directions until either side ends.

This project models the core of that program and proves properties about it.

- **Config** (`internal/config/config.go`): how the command line becomes a
  validated `Config`. Both addresses are read as `netip` addresses. Each
  comma-separated port field is trimmed, read with `strconv.Atoi` and checked
  to lie in 0..65535. Every failure yields the zero `Config` with
  `ErrInvalidParameter`. A flag-parse failure yields `ErrInvalidArgs`.
- **NetAddr** and **Text**: the parts of Go's `net/netip`, `net`, `strings`,
  `strconv` and `fmt` that the core relies on. This covers:
  - IPv4 text;
  - `AddrPort` printing;
  - `To4`;
  - `Split`, `Join` and `TrimSpace`;
  - `Atoi`;
  - decimal and hexadecimal printing.
  Only the behaviour the core needs is modelled. IPv6 text parsing is
  supplied by the caller as a function.
- **Utils** (`relay/utils.go`): classifying an address as IPv4 or IPv6, and
  printing raw address bytes as text.
- **PacketRelay** (`internal/relay/packet_relay.go`):
  - the reader pump `connToChanRelay`, which reads into a fresh 4096-byte
    buffer and queues each chunk until the first failed read;
  - the writer pump `chanToConnRelay`, which writes queued chunks until the
    channel is closed or a write fails;
  - `relay`, which starts a reader and a writer task;
  - `realyPackets`, which wires two connections crosswise through two
    channels, starting two readers and two writers and waiting on the
    port's wait group.
  Connections and channels are classes whose fields the operations update.
  A connection's future behaviour is a script of read and write outcomes.
  `internal/relay/relay.go` is a later revision of the same package. Its
  `relay` and `realyPackets` have the same shape, and the pump bodies come
  from `packet_relay.go`.
- **PortRelay** (`internal/relay/relay.go`):
  - `Run`, which builds one pipeline per configured port;
  - `makeAddr`;
  - the connection handler of `runRelay`, covering the dial-failure path, the
    relaying, the cancel helper and the deferred closes.
- **LegacyRelay** (`relay/relay.go`): the older one-way `Relay` object.
  - `makeRelay` assigns ids from a global uint64 counter, with wrap-around.
  - `read` reads into a large ring buffer at a cursor. It retries timeouts
    and empty reads. On any other error it queues a nil end marker.
  - `write` writes queued chunks until the end marker, a write error or a
    partial write. It then sets `writeEOF` and drains one item.
  - `run` runs both halves, sets `done` and signals completion.

The tasks of a relay run one after another, in one fixed order: first all
readers, then all writers. Properties proved about that order include:

- no bytes are lost, repeated or reordered from a reader's stream to a
  writer's output;
- in the legacy relay, a write error or a short write stops the writer;
  the packet relay's writer ignores the count and stops only at a write
  error;
- the end marker is queued exactly once, last;
- the wiring is crossed;
- configuration parsing round-trips.

## Model

| member | source | states |
|---|---|---|
| Config.Ipv4ConfigTextInjective | internal/config/config.go:76-90 | `String` prints `{local -> remote for ports [p1 p2 ...]}` from what `Local()`, `Remote()` and `Ports()` return. For IPv4 addresses every part can be read back: two configurations that print alike are equal. |
| Config.PortsTextInjective | internal/config/config.go:88-90 | Distinct port lists print differently under `%v`. |
| Config.ConfigTextParts | internal/config/config.go:88-90 | The printed configuration splits back into the local text, the remote text and the port-list text when the addresses print without spaces. |
| Config.MakeConfig | internal/config/config.go:92-126 | Returns the Config `ParseConfig` describes. On every failure it returns the zero Config with `ErrInvalidParameter`. The addresses are checked before any port field. |
| Config.NewConfigFromCmdLineArgs | internal/config/config.go:55-74 | A flag-parse failure gives the zero Config and `ErrInvalidArgs`. Otherwise the result is exactly `makeConfig` of the three flag values. |
| Config.ReadPorts | internal/config/config.go:107-123 | The port loop returns the port list of the fields, or a rejection as soon as one field is rejected. |
| Config.ParsedPorts | internal/config/config.go:107-123 | The list is read exactly when every field is accepted. Port i is then what field i reads as. |
| Config.AcceptedConfig | internal/config/config.go:95-125 | On success the addresses are the parsed ones. There is one port per comma-separated field, and each port is `Atoi` of the trimmed field. |
| Config.RejectedConfig | internal/config/config.go:95-120 | Every failure is `ErrInvalidParameter`. A failure happens exactly when an address is rejected or some port field is rejected. |
| Config.LocalCheckedFirst | internal/config/config.go:95-99 | An unreadable local address fails whatever the remote address and ports are. |
| Config.Ipv4AddressesPrintBack | internal/config/config.go:95-105 | Accepted dotted-decimal local and remote addresses print back as exactly the text they were read from. |
| Config.PortFieldRoundTrip | internal/config/config.go:111-122 | A port printed in decimal, with any white space around it, is accepted as that port. |
| Config.PortListRoundTrip | internal/config/config.go:107-123 | A comma-joined list of padded decimal ports parses back to the same ports, in order. |
| Config.Ipv4ConfigRoundTrip | internal/config/config.go:92-126 | Two dotted-decimal IPv4 addresses and such a port list give the Config of exactly those addresses and ports. |
| Config.PortOutOfRange | internal/config/config.go:117-120 | A port above 65535 is rejected, however it is padded. |
| Config.PortNotANumber | internal/config/config.go:111-115 | A field whose first non-blank character is neither a digit nor a sign is rejected. |
| Config.BlankFieldRejected | internal/config/config.go:111-115 | An empty or all-white-space field is rejected. |
| Config.EmptyFieldRejected | internal/config/config.go:107-115 | An empty port list, or one ending in a comma, makes the whole configuration fail. |
| Config.PortsTextRoundTrip | internal/config/config.go:88-90 | The `%v` text of the port list is bracketed. Its space-separated fields read back as the ports, in order. |
| Text.Split | internal/config/config.go:107 | `strings.Split`: at least one field, no field holds the separator, and joining the fields gives back the input. |
| Text.SplitJoin | internal/config/config.go:107 | Splitting undoes joining fields that do not contain the separator. |
| Text.TrimmedField | internal/config/config.go:111 | `strings.TrimSpace` removes white-space padding in front of a field that has no white space at either end. |
| Text.TrimLeftShape | internal/config/config.go:111 | Trimming on the left drops exactly the leading white space: the result is a suffix, everything before it is white space, and it does not start with white space. |
| Text.TrimRightShape | internal/config/config.go:111 | Trimming on the right drops exactly the trailing white space: the result is a prefix, everything after it is white space, and it does not end with white space. |
| Text.AtoiDecimal | internal/config/config.go:111 | `strconv.Atoi` reads back every decimal that fits a 64-bit int. |
| Text.AtoiRejectsNonDigit | internal/config/config.go:111-115 | Text with a character that is neither a digit nor a leading sign is not a number. |
| NetAddr.Ipv4TextRoundTrip | internal/config/config.go:95-105 | Printed IPv4 text is read back as the same four octets. |
| NetAddr.Ipv4TextCanonical | internal/config/config.go:95-105 | Accepted IPv4 text is exactly the text its address prints as. |
| NetAddr.Ipv4AddrRoundTrip | internal/config/config.go:95-105 | `netip.ParseAddr` reads printed IPv4 text back as the same IPv4 address. |
| NetAddr.Ipv4WithPortRejected | internal/config/config.go:95-99 | IPv4 text with `:port` attached is not an address. |
| NetAddr.OctetTooLargeRejected | internal/config/config.go:95-99 | Four dotted digit fields, one of them worth more than 255, are not an address, whatever their leading zeros. |
| NetAddr.DigitsWithPortRejected | internal/config/config.go:95-99 | Four dotted digit fields followed by `:` and more digits are not an address. |
| NetAddr.Ipv4StringLength | relay/utils.go:51-53 | IPv4 text is 7 to 15 characters long. |
| Utils.GetTcpAddrType | relay/utils.go:42-49 | IPv4 exactly when the IP has 4 bytes, or has 16 bytes in the `::ffff:a.b.c.d` form. |
| Utils.Ipv4BothForms | relay/utils.go:42-49 | An IPv4 address is classed IPv4 in both its 4-byte and its 16-byte form. `To4` recovers its bytes from either. |
| Utils.BytesIp4ToString | relay/utils.go:51-53 | The text reads back as the first four bytes and is 7 to 15 characters long. |
| Utils.BytesIp6ToString | relay/utils.go:55-65 | The text has exactly eight colon-separated fields. Field i is group i in upper-case hex, with 1 to 4 digits and no leading zero. |
| Utils.Ip6TextInjective | relay/utils.go:55-65 | Equal texts come from equal first sixteen bytes. |
| PacketRelay.ReadChunk | internal/relay/packet_relay.go:122-125 | One read into a fresh 4096-byte buffer gives the next scripted read's bytes or error. A closed connection gives EOF and consumes nothing. |
| PacketRelay.ConnToChanRelay | internal/relay/packet_relay.go:118-140 | The channel gains exactly the chunks `ReaderRun` describes. The pump stops at the first failed read, and a closed connection adds nothing. |
| PacketRelay.ChunksFitBuffer | internal/relay/packet_relay.go:123-138 | No queued chunk is longer than the 4096-byte buffer. |
| PacketRelay.ReaderNoLoss | internal/relay/packet_relay.go:121-139 | The chunks, concatenated, are exactly the bytes the peer sent before its stream ended. |
| PacketRelay.FailingFirstRead | internal/relay/packet_relay.go:125-136 | A failing first read, at EOF or otherwise, stops the pump after one read with nothing queued. |
| PacketRelay.ShortDataThenEof | internal/relay/packet_relay.go:121-139 | A few bytes followed by EOF take two reads and give one chunk holding those bytes. |
| PacketRelay.ChanToConnRelay | internal/relay/packet_relay.go:142-157 | Writes the queued chunks as `WriterRun` describes, and the channel keeps what was not taken. It finishes exactly when a write failed or the queue was closed. |
| PacketRelay.WriterWritesPrefix | internal/relay/packet_relay.go:145-156 | The writer hands `Write` a prefix of the queue, chunk for chunk, in order. It takes every chunk unless a write fails, and a closed connection receives nothing. |
| PacketRelay.ShortWritesIgnored | internal/relay/packet_relay.go:152 | The count a write returns changes nothing about what is written or when the writer stops. |
| PacketRelay.WriterWritesAll | internal/relay/packet_relay.go:145-156 | When no write fails, every queued chunk is written. |
| PacketRelay.WriterStopsAtError | internal/relay/packet_relay.go:152-155 | A failing write at position k stops the writer after at most k+1 chunks. |
| PacketRelay.WiringIsCrossed | internal/relay/packet_relay.go:75-91 | Every reader's channel is drained by exactly one writer, and that writer serves the other connection. |
| PacketRelay.PacketRelay.Relay | internal/relay/relay.go:141-163 | Starts a reader `conn -> wch` and a writer `rch -> conn`, and counts two tasks into the wait group. |
| PacketRelay.PacketRelay.RunReader | internal/relay/relay.go:143-151 | The reader task queues the pumped chunks, then closes its channel and counts itself out. |
| PacketRelay.PacketRelay.RunWriter | internal/relay/relay.go:154-162 | The writer task writes what `WriterRun` describes. When it finishes, it closes its connection and counts itself out. |
| PacketRelay.PacketRelay.RealyPackets | internal/relay/relay.go:121-138 | Two fresh channels and a crossed wiring. Afterwards both connections and both channels are closed, and the wait group is back to zero. Each connection receives what the other one's reader pumped, as its writer wrote it. |
| PacketRelay.PairNoLoss | internal/relay/packet_relay.go:118-157 | With no write errors, the far side receives exactly the bytes the near side's peer sent. |
| PortRelay.Run | internal/relay/relay.go:48-70 | One pipeline per configured port, in order. Each pipeline has its own fresh packet relay and goes from `local:port` to `remote:port`. |
| PortRelay.MakeAddr | internal/relay/relay.go:171-173 | A valid address prints with a colon and the port in decimal at the end. Only an invalid address prints `invalid AddrPort`. |
| PortRelay.PortAfterLastColon | internal/relay/relay.go:171-173 | The text `makeAddr` prints ends with a colon and the port in decimal, which reads back as the port. |
| PortRelay.Ipv4EndpointRoundTrip | internal/relay/relay.go:171-173 | An IPv4 endpoint splits at its one colon into the address text and the port, and both read back. |
| PortRelay.SamePortBothEnds | internal/relay/relay.go:53-56 | Both ends of a pipeline print the same port after their final colon. |
| PortRelay.HandleConn | internal/relay/relay.go:77-110 | When the dial fails, the accepted connection is closed and nothing else happens. Otherwise the two connections are relayed crosswise, both end closed, and each receives the other's pumped bytes. |
| LegacyRelay.MakeRelay | relay/relay.go:54-65 | Bumps the uint64 global counter and uses it as the id. The flags start false and the queue starts fresh and empty, with capacity 1000. |
| LegacyRelay.Relay.constructor | relay/relay.go:56-63 | A relay with the given id and connections, all flags false, and a fresh empty queue. |
| LegacyRelay.IdOfKthRelay | relay/relay.go:41-57 | Before the counter wraps, the k-th relay made gets id k. |
| LegacyRelay.IdsIncrease | relay/relay.go:41-57 | Ids of relays made one after another strictly increase, until the counter wraps. |
| LegacyRelay.IdsWrapAround | relay/relay.go:41-57 | The counter is a uint64: after 2^64 relays it is back to 0. |
| LegacyRelay.IdleStepRetried | relay/relay.go:107-121 | A timeout or a read of no bytes queues nothing, and the loop goes on. |
| LegacyRelay.FailureEndsLoop | relay/relay.go:111-116 | Any other read error ends the loop at that read. |
| LegacyRelay.ChunksFitBlock | relay/relay.go:108-124 | Every queued item is a non-nil chunk of 1 to 8192 bytes. |
| LegacyRelay.ReadLoopNoLoss | relay/relay.go:100-130 | The queued chunks, concatenated, are exactly the bytes the peer sent, with timeouts skipped, up to the first other failure. |
| LegacyRelay.MarkerOnceAtEnd | relay/relay.go:100-130 | Unless the write side has already ended, the nil marker is queued exactly once, as the last item. If it has ended, nothing is queued. |
| LegacyRelay.AdvanceCursor | relay/relay.go:126-129 | The cursor always leaves room for a full block. It advances past the bytes read and wraps to 0 exactly when a block would overrun the buffer. |
| LegacyRelay.ReadAt | relay/relay.go:108-124 | The chunk is the slice of the ring buffer at the cursor holding the next scripted read's bytes. A closed connection gives EOF. |
| LegacyRelay.Relay.ReadBlocks | relay/relay.go:97-130 | The queue gains exactly `ReadQueue` of the read script: the chunks then the nil marker, or nothing once `writeEOF` is set. |
| LegacyRelay.Relay.Read | relay/relay.go:87-134 | After the read loop, `readEOF` is set and the wait group is counted down. The queue gains exactly `ReadQueue`. |
| LegacyRelay.MarkerEndsWriteLoop | relay/relay.go:146 | A queue holding the nil marker never leaves the write loop waiting. |
| LegacyRelay.WaitsOnlyWhenEmptied | relay/relay.go:146 | The write loop waits only on an open queue that it has emptied. |
| LegacyRelay.ZeroCountWriteContinues | relay/relay.go:149-155 | A write reporting 0 bytes and no error does not stop the loop. |
| LegacyRelay.PartialWriteStops | relay/relay.go:152-155 | A write reporting some but not all of the chunk's bytes stops the loop after that chunk. |
| LegacyRelay.WriteLoopWritesAll | relay/relay.go:146-156 | When no write for a queued chunk fails or reports a count strictly between 0 and the chunk's length, every chunk before the marker is written in order, and the loop stops at the marker. |
| LegacyRelay.RelayNoLoss | relay/relay.go:87-165 | A relay whose writes succeed without a partial count (an exact-length write of any chunk included) delivers to `dst` exactly the bytes that `src`'s peer sent. |
| LegacyRelay.Drained | relay/relay.go:160-163 | The drain removes exactly one item when any remain. |
| LegacyRelay.Relay.WriteBlocks | relay/relay.go:146-156 | Writes what `WriteLoop` describes, and the queue keeps what was not taken. It finishes unless it would block on an open, empty queue. |
| LegacyRelay.Relay.Write | relay/relay.go:136-165 | After the write loop, `writeEOF` is set, one leftover item is drained, and the wait group is counted down. |
| LegacyRelay.Relay.Run | relay/relay.go:72-85 | Both loops end and `done` is set. `true` is signalled once, and `dst` receives exactly what the write loop writes of `src`'s read queue. |

## Left out

- Goroutines, channel blocking and the wait groups' blocking are not modelled as concurrency. The tasks run in one fixed order: every reader to its end, then every writer. Interleavings, and deadlocks such as a writer blocked on a full channel, are not modelled.
- Channel capacities are not enforced: `make(bufChan, 1)` and the legacy queue's capacity of 1000 are unbounded queues here. Backpressure is therefore not modelled.
- LegacyRelay.Relay.ReadBlocks: a queued chunk is a snapshot of the ring-buffer slice. Later overwrites of the buffer, which the source's comments call data corruption, are not modelled. Neither are the unsynchronised `readEOF`/`writeEOF` flags between the two goroutines.
- A `Read` that returns bytes together with an error is modelled as one step that gives either bytes or an error.
- `SetReadDeadline` and the clock are not modelled. A deadline expiry is a scripted `Timeout` step.
- IPv6 text parsing is a function parameter, not a model of netip's IPv6 grammar. Zones are carried but not checked.
- Flag parsing is modelled only by its outcome: the three flag values, or a parse error.
- Logging, `fmt.Printf` output and the remote-address strings passed only for logging are left out.
- The listener (`internal/relay/listener.go`), `main.go` and `relay/nif.go` are not part of this model. PortRelay.Run builds the pipelines and counts them through the wait group but does not run listeners.
- PortRelay.HandleConn and PacketRelay.PacketRelay.RealyPackets handle one connection per port at a time: both require the port's wait group to be at zero. In the source, one `packetRelay` and its wait group are made per port (internal/relay/relay.go:54), and the listener runs each accepted connection's handler in its own goroutine. So every connection on a port shares that wait group, `Wait` in `realyPackets` waits for the tasks of all of them, and an `Add` can race with a `Wait` in progress. Modelling this would need the interleaving of goroutines, which the model does not have.
- PortRelay.HandleConn: context cancellation is modelled as the cancel helper's `Done` and deferred closes running right after `realyPackets` returns. The dial is a parameter.
- `Relay.close` (relay/relay.go:67-70) is not modelled. Nothing calls it, and it closes `sch`, which `makeRelay` never sets.
- LegacyRelay.Relay.ReadBlocks: the number of reads made is not stated.
- Table-driven tests are stated as general lemmas over all inputs rather than one case per row.
