/** internal/relay/packet_relay.go: the two pumps that move bytes between a
    connection and a channel, and the wiring that joins two connections
    through two channels with four tasks. The tasks run one after another:
    first both readers, then both writers. */
module PacketRelay {
  import opened Wrappers
  import opened Text
  import opened Io

  const DefaultBufferSize: nat := 4096

  /** `bufChan`: a channel of byte slices. */
  type BufChan = Chan<seq<byte>>

  // ---------------------------------------------------------------------
  // connToChanRelay
  // ---------------------------------------------------------------------

  /** What the reader pump does with an open connection's script: the chunks
      it enqueues, how many reads it makes, and the script left over. */
  datatype ReaderOutcome = ReaderOutcome(chunks: seq<seq<byte>>, readCount: nat, rest: seq<ReadStep>)

  /** Read into a fresh 4096-byte buffer and enqueue what was read, until a
      read fails, at EOF or any other error. The failing read enqueues
      nothing, so there is one read more than there are chunks. */
  function ReaderRun(script: seq<ReadStep>): (r: ReaderOutcome)
    ensures r.readCount == |r.chunks| + 1
    decreases Weight(script)
  {
    NextReadProgress(script, DefaultBufferSize);
    var o := NextRead(script, DefaultBufferSize);
    if o.err.Some? then ReaderOutcome([], 1, o.rest)
    else
      var r := ReaderRun(o.rest);
      ReaderOutcome([o.data] + r.chunks, r.readCount + 1, r.rest)
  }

  /** No chunk is longer than the buffer it was read into. */
  lemma {:induction false} ChunksFitBuffer(script: seq<ReadStep>)
    ensures forall i :: 0 <= i < |ReaderRun(script).chunks| ==> |ReaderRun(script).chunks[i]| <= DefaultBufferSize
    decreases Weight(script)
  {
    NextReadProgress(script, DefaultBufferSize);
    var o := NextRead(script, DefaultBufferSize);
    if o.err.None? {
      ChunksFitBuffer(o.rest);
    }
  }

  /** The chunks hold exactly the bytes the peer sent before the stream
      ended, in order: nothing lost, repeated or reordered. */
  lemma {:induction false} ReaderNoLoss(script: seq<ReadStep>)
    ensures Flatten(ReaderRun(script).chunks) == Stream(script)
    decreases Weight(script)
  {
    NextReadProgress(script, DefaultBufferSize);
    var o := NextRead(script, DefaultBufferSize);
    if o.err.None? {
      ReaderNoLoss(o.rest);
      var r := ReaderRun(o.rest);
      assert ([o.data] + r.chunks)[1..] == r.chunks;
    }
  }

  /** A first read that fails, at EOF or otherwise, stops the pump after that
      one read with nothing queued. */
  lemma FailingFirstRead(f: Failure, rest: seq<ReadStep>)
    ensures ReaderRun([Fail(f)] + rest) == ReaderOutcome([], 1, rest)
  {
    assert ([Fail(f)] + rest)[1..] == rest;
  }

  /** A few bytes then EOF: two reads and one chunk holding those bytes. */
  lemma ShortDataThenEof(b: seq<byte>)
    requires |b| <= DefaultBufferSize
    ensures ReaderRun([Data(b), Fail(EOF)]) == ReaderOutcome([b], 2, [])
  {
    var s := [Data(b), Fail(EOF)];
    assert s[1..] == [Fail(EOF)];
    FailingFirstRead(EOF, []);
    assert [Fail(EOF)] + [] == [Fail(EOF)];
  }

  /** The outcome `r` of a later part of a run, preceded by the chunks `done`
      of its earlier turns. */
  function AfterTurns(done: seq<seq<byte>>, r: ReaderOutcome): ReaderOutcome
  {
    ReaderOutcome(done + r.chunks, |done| + r.readCount, r.rest)
  }

  /** One turn of the reader pump: a failed read ends the run, a successful
      one moves its bytes from the rest of the run to the chunks done. */
  lemma ReaderTurn(script0: seq<ReadStep>, done: seq<seq<byte>>, script: seq<ReadStep>)
    requires ReaderRun(script0) == AfterTurns(done, ReaderRun(script))
    ensures var o := NextRead(script, DefaultBufferSize);
      && (o.err.Some? ==> ReaderRun(script0) == ReaderOutcome(done, |done| + 1, o.rest))
      && (o.err.None? ==>
            Weight(o.rest) < Weight(script) && ReaderRun(script0) == AfterTurns(done + [o.data], ReaderRun(o.rest)))
  {
    NextReadProgress(script, DefaultBufferSize);
    var o := NextRead(script, DefaultBufferSize);
    if o.err.None? {
      assert done + ([o.data] + ReaderRun(o.rest).chunks) == (done + [o.data]) + ReaderRun(o.rest).chunks;
    }
  }

  /** The head of the `connToChanRelay` loop: a fresh 4096-byte buffer, one
      read into it, and the bytes read. */
  method ReadChunk(conn: Conn) returns (data: seq<byte>, err: Option<Failure>)
    modifies conn`readScript, conn`readCnt
    ensures old(conn.closed) ==>
      data == [] && err == Some(EOF) && conn.readScript == old(conn.readScript) && conn.readCnt == old(conn.readCnt)
    ensures !old(conn.closed) ==> var o := NextRead(old(conn.readScript), DefaultBufferSize);
      && data == o.data && err == o.err && conn.readScript == o.rest && conn.readCnt == old(conn.readCnt) + 1
  {
    var buf := new byte[DefaultBufferSize];
    var n;
    n, err := conn.Read(buf, 0, DefaultBufferSize);
    data := buf[..n];
  }

  /** `connToChanRelay`: each successful read is queued; the pump returns at
      the first failed read. On a closed connection that is the first read. */
  method ConnToChanRelay(conn: Conn, ch: BufChan)
    requires !ch.closed
    modifies conn`readScript, conn`readCnt, ch`items
    ensures ch.items == old(ch.items) + PumpedChunks(old(conn.readScript), old(conn.closed))
    ensures old(conn.closed) ==> conn.readCnt == old(conn.readCnt) && conn.readScript == old(conn.readScript)
    ensures !old(conn.closed) ==>
      var r := ReaderRun(old(conn.readScript));
      conn.readCnt == old(conn.readCnt) + r.readCount && conn.readScript == r.rest
  {
    ghost var script0 := conn.readScript;
    ghost var done: seq<seq<byte>> := [];
    assert done + ReaderRun(script0).chunks == ReaderRun(script0).chunks;
    while true
      invariant conn.closed == old(conn.closed) && !ch.closed
      invariant ch.items == old(ch.items) + done
      invariant conn.readCnt == old(conn.readCnt) + |done|
      invariant conn.closed ==> done == [] && conn.readScript == script0
      invariant !conn.closed ==> ReaderRun(script0) == AfterTurns(done, ReaderRun(conn.readScript))
      decreases Weight(conn.readScript)
    {
      ghost var script := conn.readScript;
      var data, err := ReadChunk(conn);
      if !conn.closed {
        ReaderTurn(script0, done, script);
      }
      if err.Some? {
        return;
      }
      ch.Send(data);
      done := done + [data];
    }
  }

  /** What a reader pump queues: nothing from a closed connection. */
  function PumpedChunks(script: seq<ReadStep>, connClosed: bool): seq<seq<byte>>
  {
    if connClosed then [] else ReaderRun(script).chunks
  }

  // ---------------------------------------------------------------------
  // chanToConnRelay
  // ---------------------------------------------------------------------

  /** What the writer pump does with the queued chunks: the payloads it
      passes to `Write`, how many chunks it takes off the queue, the write
      script left over, and whether it stopped at a failed write. */
  datatype WriterOutcome = WriterOutcome(payloads: seq<seq<byte>>, consumed: nat, rest: seq<WriteStep>, failed: bool)

  /** Write the chunks in queue order until a write fails. The count `Write`
      returns is not looked at. On a closed connection the first write fails
      without reaching it. */
  function WriterRun(items: seq<seq<byte>>, script: seq<WriteStep>, connClosed: bool): (r: WriterOutcome)
    ensures r.consumed <= |items|
  {
    if items == [] then WriterOutcome([], 0, script, false)
    else if connClosed then WriterOutcome([], 1, script, true)
    else
      var (step, rest) := NextWrite(script, |items[0]|);
      if step.err.Some? then WriterOutcome([items[0]], 1, rest, true)
      else
        var r := WriterRun(items[1..], rest, false);
        WriterOutcome([items[0]] + r.payloads, r.consumed + 1, r.rest, r.failed)
  }

  /** The writer hands `Write` the queued chunks themselves, in queue order,
      from the first one on; it stops only at a failed write, which is the
      last chunk it takes, and a closed connection sees no payload at all. */
  lemma {:induction false} WriterWritesPrefix(items: seq<seq<byte>>, script: seq<WriteStep>, connClosed: bool)
    ensures var r := WriterRun(items, script, connClosed);
      && (!r.failed ==> r.consumed == |items|)
      && (r.failed ==> 1 <= r.consumed)
      && r.payloads == (if connClosed && items != [] then [] else items[..r.consumed])
  {
    if items != [] && !connClosed {
      var (step, rest) := NextWrite(script, |items[0]|);
      if step.err.None? {
        WriterWritesPrefix(items[1..], rest, false);
        var r := WriterRun(items[1..], rest, false);
        assert [items[0]] + items[1..][..r.consumed] == items[..r.consumed + 1];
      }
    }
  }

  /** The write steps with their counts replaced by zero. */
  function CountsDropped(script: seq<WriteStep>): (s: seq<WriteStep>)
    ensures |s| == |script|
  {
    if script == [] then [] else [WriteStep(0, script[0].err)] + CountsDropped(script[1..])
  }

  /** Short writes are ignored: what the writer writes, and when it stops,
      depends only on which writes report an error. */
  lemma {:induction false} ShortWritesIgnored(items: seq<seq<byte>>, script: seq<WriteStep>, connClosed: bool)
    ensures var a := WriterRun(items, script, connClosed);
      var b := WriterRun(items, CountsDropped(script), connClosed);
      && a.payloads == b.payloads && a.consumed == b.consumed && a.failed == b.failed
      && b.rest == CountsDropped(a.rest)
  {
    if items != [] && !connClosed && script == [] {
      ShortWritesIgnored(items[1..], [], false);
    } else if items != [] && !connClosed {
      assert CountsDropped(script)[1..] == CountsDropped(script[1..]);
      if script[0].err.None? {
        ShortWritesIgnored(items[1..], script[1..], false);
      }
    }
  }

  /** When every scripted write succeeds, the writer writes every chunk. */
  predicate NoWriteErrors(script: seq<WriteStep>)
  {
    forall i :: 0 <= i < |script| ==> script[i].err.None?
  }

  lemma {:induction false} WriterWritesAll(items: seq<seq<byte>>, script: seq<WriteStep>)
    requires NoWriteErrors(script)
    ensures WriterRun(items, script, false).payloads == items
    ensures !WriterRun(items, script, false).failed
  {
    if items != [] && script != [] {
      assert NoWriteErrors(script[1..]) by {
        assert forall i :: 0 <= i < |script[1..]| ==> script[1..][i] == script[i + 1];
      }
      assert script[0].err.None?;
      WriterWritesAll(items[1..], script[1..]);
    } else if items != [] {
      WriterWritesAll(items[1..], []);
    }
  }

  /** A write error stops the writer: the failing chunk is the last one
      handed to `Write`, and the chunks after it stay queued. */
  lemma {:induction false} WriterStopsAtError(items: seq<seq<byte>>, script: seq<WriteStep>, k: nat)
    requires k < |items| && k < |script| && script[k].err.Some?
    ensures WriterRun(items, script, false).consumed <= k + 1
    ensures WriterRun(items, script, false).failed
  {
    if script[0].err.None? {
      WriterStopsAtError(items[1..], script[1..], k - 1);
    }
  }

  /** The outcome `r` of a later part of a writer run, preceded by the
      payloads `written` and the `taken` chunks of its earlier turns. */
  function AfterWrites(written: seq<seq<byte>>, taken: nat, r: WriterOutcome): WriterOutcome
  {
    WriterOutcome(written + r.payloads, taken + r.consumed, r.rest, r.failed)
  }

  /** One turn of the writer pump: the chunk at the head of the queue is
      written; a failed write ends the run. */
  lemma WriterTurn(r0: WriterOutcome, written: seq<seq<byte>>, taken: nat,
                   items: seq<seq<byte>>, script: seq<WriteStep>, connClosed: bool)
    requires items != [] && r0 == AfterWrites(written, taken, WriterRun(items, script, connClosed))
    ensures connClosed ==> r0 == WriterOutcome(written, taken + 1, script, true)
    ensures !connClosed ==>
      var (step, rest) := NextWrite(script, |items[0]|);
      && (step.err.Some? ==> r0 == WriterOutcome(written + [items[0]], taken + 1, rest, true))
      && (step.err.None? ==> r0 == AfterWrites(written + [items[0]], taken + 1, WriterRun(items[1..], rest, false)))
  {
    if !connClosed {
      var (step, rest) := NextWrite(script, |items[0]|);
      if step.err.None? {
        var t := WriterRun(items[1..], rest, false);
        assert written + ([items[0]] + t.payloads) == (written + [items[0]]) + t.payloads;
      }
    }
  }

  /** `chanToConnRelay`: take chunks off the queue in order and write each;
      stop at the first failed write, or when the queue is closed and empty.
      An empty open queue is where the Go routine would wait: `finished` is
      false then. */
  method ChanToConnRelay(ch: BufChan, conn: Conn) returns (finished: bool)
    modifies ch`items, conn`writeScript, conn`writeCnt, conn`writes
    ensures var r := WriterRun(old(ch.items), old(conn.writeScript), old(conn.closed));
      && ch.items == old(ch.items)[r.consumed..]
      && conn.writes == old(conn.writes) + r.payloads
      && conn.writeScript == r.rest
      && finished == (r.failed || ch.closed)
  {
    ghost var r0 := WriterRun(ch.items, conn.writeScript, conn.closed);
    ghost var taken := 0;
    ghost var written: seq<seq<byte>> := [];
    while true
      invariant taken <= |old(ch.items)| && ch.items == old(ch.items)[taken..]
      invariant conn.writes == old(conn.writes) + written
      invariant r0 == AfterWrites(written, taken, WriterRun(ch.items, conn.writeScript, conn.closed))
      decreases |ch.items|
    {
      ghost var items := ch.items;
      ghost var script := conn.writeScript;
      var rcv := ch.Recv();
      match rcv {
        case Closed =>
          return true;
        case WouldBlock =>
          return false;
        case Item(payload) =>
          WriterTurn(r0, written, taken, items, script, conn.closed);
          var _, err := conn.Write(payload);
          if err.Some? {
            return true;
          }
          taken := taken + 1;
          written := written + [payload];
      }
    }
  }

  // ---------------------------------------------------------------------
  // relay and realyPackets
  // ---------------------------------------------------------------------

  /** A task `relay` starts: a reader pumping `conn` into `wch`, or a writer
      pumping `rch` into `conn`. */
  datatype Task = Reader(conn: Conn, wch: BufChan) | Writer(conn: Conn, rch: BufChan)

  /** The four tasks `realyPackets` registers for `in` and `out`. */
  function Wiring(inConn: Conn, outConn: Conn, ich: BufChan, och: BufChan): seq<Task>
  {
    [Reader(inConn, och), Writer(inConn, ich), Reader(outConn, ich), Writer(outConn, och)]
  }

  /** Every reader's channel is drained by exactly one writer, and that
      writer serves the other connection. */
  predicate CrossWired(tasks: seq<Task>)
  {
    && (forall i :: 0 <= i < |tasks| && tasks[i].Reader? ==>
          exists j :: 0 <= j < |tasks| && tasks[j].Writer? && tasks[j].rch == tasks[i].wch)
    && (forall i, j ::
          (0 <= i < |tasks| && 0 <= j < |tasks| && tasks[i].Reader? && tasks[j].Writer? && tasks[j].rch == tasks[i].wch)
          ==> tasks[j].conn != tasks[i].conn)
    && (forall j, m ::
          (0 <= j < |tasks| && 0 <= m < |tasks| && tasks[j].Writer? && tasks[m].Writer? && tasks[j].rch == tasks[m].rch)
          ==> j == m)
  }

  lemma WiringIsCrossed(inConn: Conn, outConn: Conn, ich: BufChan, och: BufChan)
    requires inConn != outConn && ich != och
    ensures CrossWired(Wiring(inConn, outConn, ich, och))
  {
    var t := Wiring(inConn, outConn, ich, och);
    assert t[3].Writer? && t[3].rch == t[0].wch;
    assert t[1].Writer? && t[1].rch == t[2].wch;
  }

  /** `packetRelay`: the wait group its tasks register with. */
  class PacketRelay {
    const wg: WaitGroup

    constructor ()
      ensures fresh(wg) && wg.counter == 0
    {
      wg := new WaitGroup();
    }

    /** `relay`: start a reader `conn -> wch` and a writer `rch -> conn`,
        adding one to the wait group for each. */
    method Relay(conn: Conn, rch: BufChan, wch: BufChan) returns (started: seq<Task>)
      modifies wg
      ensures started == [Reader(conn, wch), Writer(conn, rch)]
      ensures wg.counter == old(wg.counter) + 2
    {
      wg.Add(1);
      started := [Reader(conn, wch)];
      wg.Add(1);
      started := started + [Writer(conn, rch)];
    }

    /** A reader task to its end: pump, then close its channel, then Done. */
    method RunReader(conn: Conn, wch: BufChan)
      requires !wch.closed && wg.counter > 0
      modifies conn`readScript, conn`readCnt, wch`items, wch`closed, wg
      ensures wch.closed && wg.counter == old(wg.counter) - 1
      ensures wch.items == old(wch.items) + PumpedChunks(old(conn.readScript), old(conn.closed))
    {
      ConnToChanRelay(conn, wch);
      wch.Close();
      wg.Done();
    }

    /** A writer task: pump, then close its connection, then Done. A writer
        left waiting on an open channel does neither. */
    method RunWriter(rch: BufChan, conn: Conn) returns (finished: bool)
      requires wg.counter > 0
      modifies rch`items, conn`writeScript, conn`writeCnt, conn`writes, conn`closed, wg
      ensures var r := WriterRun(old(rch.items), old(conn.writeScript), old(conn.closed));
        && conn.writes == old(conn.writes) + r.payloads
        && finished == (r.failed || rch.closed)
      ensures finished ==> conn.closed && wg.counter == old(wg.counter) - 1
      ensures !finished ==> conn.closed == old(conn.closed) && wg.counter == old(wg.counter)
    {
      finished := ChanToConnRelay(rch, conn);
      if finished {
        conn.Close();
        wg.Done();
      }
    }

    /** The two reader tasks, `in -> och` and `out -> ich`, run to their end. */
    method RunReaders(inConn: Conn, outConn: Conn, ich: BufChan, och: BufChan)
      requires inConn != outConn && ich != och && !ich.closed && !och.closed && wg.counter >= 2
      modifies inConn`readScript, inConn`readCnt, outConn`readScript, outConn`readCnt
      modifies ich`items, ich`closed, och`items, och`closed, wg
      ensures ich.closed && och.closed && wg.counter == old(wg.counter) - 2
      ensures och.items == old(och.items) + PumpedChunks(old(inConn.readScript), old(inConn.closed))
      ensures ich.items == old(ich.items) + PumpedChunks(old(outConn.readScript), old(outConn.closed))
    {
      RunReader(inConn, och);
      RunReader(outConn, ich);
    }

    /** The two writer tasks, `ich -> in` and `och -> out`, run to their end
        once both channels are closed. */
    method RunWriters(inConn: Conn, outConn: Conn, ich: BufChan, och: BufChan)
      requires inConn != outConn && ich != och && ich.closed && och.closed && wg.counter >= 2
      modifies ich`items, och`items, wg
      modifies inConn`writeScript, inConn`writeCnt, inConn`writes, inConn`closed
      modifies outConn`writeScript, outConn`writeCnt, outConn`writes, outConn`closed
      ensures inConn.closed && outConn.closed && wg.counter == old(wg.counter) - 2
      ensures inConn.writes == old(inConn.writes) + WriterRun(old(ich.items), old(inConn.writeScript), old(inConn.closed)).payloads
      ensures outConn.writes == old(outConn.writes) + WriterRun(old(och.items), old(outConn.writeScript), old(outConn.closed)).payloads
    {
      var inDone := RunWriter(ich, inConn);
      var outDone := RunWriter(och, outConn);
    }

    /** `realyPackets`: wire `in -> och -> out` and `out -> ich -> in`, run
        the pair's four tasks, and wait on the wait group. The wait group is
        the port's; the model has one connection on it at a time, so the
        wait ends when these four tasks are done. Both connections end
        closed, and each receives what the other one's peer sent. */
    method RealyPackets(inConn: Conn, outConn: Conn) returns (ich: BufChan, och: BufChan, started: seq<Task>)
      requires inConn != outConn && wg.counter == 0
      modifies wg, inConn, outConn
      ensures fresh(ich) && fresh(och) && ich != och
      ensures started == Wiring(inConn, outConn, ich, och) && CrossWired(started)
      ensures inConn.closed && outConn.closed && ich.closed && och.closed && wg.counter == 0
      ensures outConn.writes == old(outConn.writes) +
        WriterRun(PumpedChunks(old(inConn.readScript), old(inConn.closed)), old(outConn.writeScript), old(outConn.closed)).payloads
      ensures inConn.writes == old(inConn.writes) +
        WriterRun(PumpedChunks(old(outConn.readScript), old(outConn.closed)), old(inConn.writeScript), old(inConn.closed)).payloads
    {
      ich := new Chan<seq<byte>>();
      och := new Chan<seq<byte>>();
      var inTasks := Relay(inConn, ich, och);
      var outTasks := Relay(outConn, och, ich);
      started := inTasks + outTasks;
      WiringIsCrossed(inConn, outConn, ich, och);
      assert ich.items == [] && och.items == [];
      RunReaders(inConn, outConn, ich, och);
      assert ich.items == PumpedChunks(old(outConn.readScript), old(outConn.closed));
      assert och.items == PumpedChunks(old(inConn.readScript), old(inConn.closed));
      assert inConn.writes == old(inConn.writes) && inConn.writeScript == old(inConn.writeScript) && inConn.closed == old(inConn.closed);
      assert outConn.writes == old(outConn.writes) && outConn.writeScript == old(outConn.writeScript) && outConn.closed == old(outConn.closed);
      RunWriters(inConn, outConn, ich, och);
      wg.Wait();
    }
  }

  /** With no write errors on the far side, a pair delivers everything the
      near peer sent before its stream ended, in order. */
  lemma PairNoLoss(readScript: seq<ReadStep>, writeScript: seq<WriteStep>)
    requires NoWriteErrors(writeScript)
    ensures Flatten(WriterRun(ReaderRun(readScript).chunks, writeScript, false).payloads) == Stream(readScript)
  {
    WriterWritesAll(ReaderRun(readScript).chunks, writeScript);
    ReaderNoLoss(readScript);
  }
}
