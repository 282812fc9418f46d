/** relay/relay.go: the older relay revision. A `Relay` object moves bytes
    one way, from `src` to `dst`, through a queue of slices of one large ring
    buffer; a nil slice on the queue marks the end of the stream. Ids come
    from a global counter. The read loop and the write loop run one after
    the other: first the read loop, then the write loop. */
module LegacyRelay {
  import opened Wrappers
  import opened Text
  import opened Io

  /** `queueLength`: the capacity of a relay's queue. */
  const QueueLength: nat := 1000
  /** `readBlock`: the room each read is given in the ring buffer. */
  const ReadBlock: nat := 8192
  /** The ring buffer's length for a queue of capacity `QueueLength`. */
  const BufferLen: nat := ReadBlock * (QueueLength + 100)

  /** `relayGlobalCounter` is a uint64. */
  const CounterModulus: nat := 0x1_0000_0000_0000_0000

  /** A queued item: a chunk, or None for the nil end marker. */
  type Item = Option<seq<byte>>

  // ---------------------------------------------------------------------
  // makeRelay and the global counter
  // ---------------------------------------------------------------------

  /** The package-level variable `relayGlobalCounter`. */
  class Globals {
    var relayGlobalCounter: nat

    constructor ()
      ensures relayGlobalCounter == 0
    {
      relayGlobalCounter := 0;
    }
  }

  /** The counter after `++` on a uint64. */
  function Incremented(counter: nat): nat
  {
    (counter + 1) % CounterModulus
  }

  /** The counter after `k` relays were made from a fresh start. */
  function CounterAfter(k: nat): nat
  {
    if k == 0 then 0 else Incremented(CounterAfter(k - 1))
  }

  /** The `k`-th relay made gets id `k`, as long as the counter has not
      wrapped around. */
  lemma {:induction false} IdOfKthRelay(k: nat)
    requires k < CounterModulus
    ensures CounterAfter(k) == k
  {
    if k > 0 {
      IdOfKthRelay(k - 1);
    }
  }

  /** Ids of relays made one after another strictly increase. */
  lemma IdsIncrease(i: nat, j: nat)
    requires i < j < CounterModulus
    ensures CounterAfter(i) < CounterAfter(j)
  {
    IdOfKthRelay(i);
    IdOfKthRelay(j);
  }

  /** The first relay after 2^64 - 1 others gets id 0 again. */
  lemma IdsWrapAround()
    ensures CounterAfter(CounterModulus) == 0
  {
    IdOfKthRelay(CounterModulus - 1);
  }

  // ---------------------------------------------------------------------
  // The read loop
  // ---------------------------------------------------------------------

  /** What the read loop does with an open connection's script: the items
      it queues before its end marker, and the script left over. */
  datatype ReadLoopOutcome = ReadLoopOutcome(queued: seq<Item>, rest: seq<ReadStep>)

  /** Read up to `ReadBlock` bytes at a time. A timeout or a read of no bytes
      is retried; any other failure ends the loop; a read of some bytes is
      queued. */
  function ReadLoop(script: seq<ReadStep>): ReadLoopOutcome
    decreases Weight(script)
  {
    NextReadProgress(script, ReadBlock);
    var o := NextRead(script, ReadBlock);
    if o.err == Some(Timeout) then ReadLoop(o.rest)
    else if o.err.Some? then ReadLoopOutcome([], o.rest)
    else if o.data == [] then ReadLoop(o.rest)
    else
      var r := ReadLoop(o.rest);
      ReadLoopOutcome([Some(o.data)] + r.queued, r.rest)
  }

  /** The bytes of a queued item; the end marker has none. */
  function Chunk(item: Item): seq<byte>
  {
    match item
    case Some(b) => b
    case None => []
  }

  /** The chunks of queued items, in order. */
  function Chunks(items: seq<Item>): (cs: seq<seq<byte>>)
    ensures |cs| == |items|
  {
    if items == [] then [] else [Chunk(items[0])] + Chunks(items[1..])
  }

  /** The bytes the peer sends before a failure other than a timeout. */
  function RetriedStream(script: seq<ReadStep>): seq<byte>
  {
    if script == [] then []
    else match script[0]
      case Fail(f) => if f == Timeout then RetriedStream(script[1..]) else []
      case Data(b) => b + RetriedStream(script[1..])
  }

  /** A step that gives no bytes: a timeout, or a read of no bytes. */
  predicate Idle(step: ReadStep)
  {
    step == Fail(Timeout) || step == Data([])
  }

  /** A timeout or a read of no bytes queues nothing: the loop carries on
      with the next read as if that step had not been there. */
  lemma IdleStepRetried(step: ReadStep, script: seq<ReadStep>)
    requires Idle(step)
    ensures ReadLoop([step] + script) == ReadLoop(script)
  {
    assert ([step] + script)[1..] == script;
  }

  /** Any other failure ends the loop at that read with nothing queued. */
  lemma FailureEndsLoop(f: Failure, script: seq<ReadStep>)
    requires f != Timeout
    ensures ReadLoop([Fail(f)] + script) == ReadLoopOutcome([], script)
  {
    assert ([Fail(f)] + script)[1..] == script;
  }

  /** Every queued item is a chunk, never the end marker, and the chunk is
      non-empty and fits in one read block. */
  lemma {:induction false} ChunksFitBlock(script: seq<ReadStep>)
    ensures forall i :: 0 <= i < |ReadLoop(script).queued| ==>
      ReadLoop(script).queued[i].Some? && 0 < |ReadLoop(script).queued[i].value| <= ReadBlock
    decreases Weight(script)
  {
    NextReadProgress(script, ReadBlock);
    var o := NextRead(script, ReadBlock);
    if o.err.None? || o.err == Some(Timeout) {
      ChunksFitBlock(o.rest);
    }
  }

  /** The chunks hold exactly the bytes the peer sent before its stream
      ended, timeouts skipped: nothing lost, repeated or reordered. */
  lemma {:induction false} ReadLoopNoLoss(script: seq<ReadStep>)
    ensures Flatten(Chunks(ReadLoop(script).queued)) == RetriedStream(script)
    decreases Weight(script)
  {
    NextReadProgress(script, ReadBlock);
    var o := NextRead(script, ReadBlock);
    if o.err == Some(Timeout) {
      ReadLoopNoLoss(o.rest);
      assert script[1..] == o.rest;
    } else if o.err.None? {
      ReadLoopNoLoss(o.rest);
      var r := ReadLoop(o.rest);
      match script[0]
      case Data(b) =>
        if |b| <= ReadBlock {
          assert o.rest == script[1..];
        } else {
          assert o.rest[1..] == script[1..];
          assert b == b[..ReadBlock] + b[ReadBlock..];
        }
      if o.data != [] {
        assert ([Some(o.data)] + r.queued)[1..] == r.queued;
      }
    }
  }

  /** The outcome `r` of a later part of a read loop, preceded by the items
      `done` its earlier turns queued. */
  function AfterReads(done: seq<Item>, r: ReadLoopOutcome): ReadLoopOutcome
  {
    ReadLoopOutcome(done + r.queued, r.rest)
  }

  /** One turn of the read loop: a failure other than a timeout ends the
      run with the items already queued; a timeout or a read of no bytes
      queues nothing; a read of some bytes queues them. */
  lemma ReadTurn(script0: seq<ReadStep>, done: seq<Item>, script: seq<ReadStep>)
    requires ReadLoop(script0) == AfterReads(done, ReadLoop(script))
    ensures var o := NextRead(script, ReadBlock);
      && (o.err.Some? && o.err != Some(Timeout) ==> ReadLoop(script0) == ReadLoopOutcome(done, o.rest))
      && (o.err == Some(Timeout) || (o.err.None? && o.data == []) ==>
            Weight(o.rest) < Weight(script) && ReadLoop(script0) == AfterReads(done, ReadLoop(o.rest)))
      && (o.err.None? && o.data != [] ==>
            Weight(o.rest) < Weight(script) && ReadLoop(script0) == AfterReads(done + [Some(o.data)], ReadLoop(o.rest)))
  {
    NextReadProgress(script, ReadBlock);
    var o := NextRead(script, ReadBlock);
    if o.err == Some(Timeout) {
      assert script != [];
    } else if o.err.None? && o.data != [] {
      assert done + ([Some(o.data)] + ReadLoop(o.rest).queued) == (done + [Some(o.data)]) + ReadLoop(o.rest).queued;
    }
  }

  /** The reads the loop of `read` makes: none once the write side has
      ended; one that fails at once, uncounted by the connection, on a
      closed connection; otherwise those of `ReadLoop`. */
  function ReadRun(script: seq<ReadStep>, connClosed: bool, writeEOF: bool): ReadLoopOutcome
  {
    if writeEOF || connClosed then ReadLoopOutcome([], script) else ReadLoop(script)
  }

  /** What the read loop queues: nothing once the write side has ended, and
      otherwise its chunks followed by the end marker. */
  function ReadQueue(script: seq<ReadStep>, connClosed: bool, writeEOF: bool): seq<Item>
  {
    if writeEOF then [] else ReadRun(script, connClosed, writeEOF).queued + [None]
  }

  /** The end marker is queued exactly once, as the last item, unless the
      write side had already ended. */
  lemma MarkerOnceAtEnd(script: seq<ReadStep>, connClosed: bool, writeEOF: bool)
    ensures var q := ReadQueue(script, connClosed, writeEOF);
      && (writeEOF <==> q == [])
      && (!writeEOF ==> q[|q| - 1] == None && forall i :: 0 <= i < |q| - 1 ==> q[i].Some?)
  {
    ChunksFitBlock(script);
  }

  // ---------------------------------------------------------------------
  // The ring cursor
  // ---------------------------------------------------------------------

  /** Move the ring cursor past the `byteRead` bytes just queued at
      `rindex`, back to the start when a whole block would no longer fit:
      the cursor always leaves room for a whole block, so every read slice
      and every chunk lies inside the buffer. */
  method AdvanceCursor(rindex: nat, byteRead: nat, bufferLen: nat) returns (next: nat)
    requires rindex + ReadBlock <= bufferLen
    ensures next + ReadBlock <= bufferLen
    ensures next == 0 <==> rindex + byteRead + ReadBlock > bufferLen || rindex + byteRead == 0
    ensures next != 0 ==> next == rindex + byteRead
  {
    next := rindex + byteRead;
    if next + ReadBlock > bufferLen {
      next := 0;
    }
  }

  /** One read of `conn` into `buf` at the cursor `at`, with room for one
      block, and the slice of `buf` holding the bytes read: the chunk is
      exactly those bytes at the cursor. */
  method ReadAt(conn: Conn, buf: array<byte>, at: nat) returns (chunk: seq<byte>, err: Option<Failure>)
    requires at + ReadBlock <= buf.Length
    modifies conn`readScript, conn`readCnt, buf
    ensures at + |chunk| <= buf.Length && chunk == buf[at..at + |chunk|]
    ensures old(conn.closed) ==> chunk == [] && err == Some(EOF) && conn.readScript == old(conn.readScript)
    ensures !old(conn.closed) ==> var o := NextRead(old(conn.readScript), ReadBlock);
      chunk == o.data && err == o.err && conn.readScript == o.rest
  {
    var byteRead;
    byteRead, err := conn.Read(buf, at, at + ReadBlock);
    chunk := buf[at..at + byteRead];
  }

  // ---------------------------------------------------------------------
  // The write loop
  // ---------------------------------------------------------------------

  /** Why the write loop stopped: at the end marker (or a closed queue), at a
      write error, at a partial write, or, on an empty open queue, where the
      Go routine would wait. */
  datatype Stop = AtMarker | AtWriteError | AtPartialWrite | Waiting

  /** What the write loop does with the queued items: the payloads it passes
      to `Write`, how many items it takes off the queue, the write script
      left over, and why it stopped. */
  datatype WriteLoopOutcome = WriteLoopOutcome(payloads: seq<seq<byte>>, consumed: nat, rest: seq<WriteStep>, stop: Stop)

  /** Take items off the queue and write each chunk, until the end marker,
      a write error, or a write that reports some but not all of its bytes.
      A write that reports 0 bytes and no error is not a failure. */
  function WriteLoop(items: seq<Item>, chanClosed: bool, script: seq<WriteStep>, connClosed: bool): (r: WriteLoopOutcome)
    ensures r.consumed <= |items|
  {
    if items == [] then WriteLoopOutcome([], 0, script, if chanClosed then AtMarker else Waiting)
    else if items[0].None? then WriteLoopOutcome([], 1, script, AtMarker)
    else if connClosed then WriteLoopOutcome([], 1, script, AtWriteError)
    else
      var b := items[0].value;
      var (step, rest) := NextWrite(script, |b|);
      if step.err.Some? then WriteLoopOutcome([b], 1, rest, AtWriteError)
      else if 0 < step.n < |b| then WriteLoopOutcome([b], 1, rest, AtPartialWrite)
      else
        var r := WriteLoop(items[1..], chanClosed, rest, false);
        WriteLoopOutcome([b] + r.payloads, r.consumed + 1, r.rest, r.stop)
  }

  /** A queue holding the end marker never leaves the write loop waiting. */
  lemma {:induction false} MarkerEndsWriteLoop(items: seq<Item>, chanClosed: bool, script: seq<WriteStep>, connClosed: bool)
    requires None in items
    ensures WriteLoop(items, chanClosed, script, connClosed).stop != Waiting
  {
    if items[0].Some? && !connClosed {
      var (step, rest) := NextWrite(script, |items[0].value|);
      if step.err.None? && !(0 < step.n < |items[0].value|) {
        assert None in items[1..] by {
          var k :| 0 <= k < |items| && items[k] == None;
          assert items[1..][k - 1] == None;
        }
        MarkerEndsWriteLoop(items[1..], chanClosed, rest, false);
      }
    }
  }

  /** The write loop waits only on an open queue it has emptied. */
  lemma {:induction false} WaitsOnlyWhenEmptied(items: seq<Item>, chanClosed: bool, script: seq<WriteStep>, connClosed: bool)
    ensures var r := WriteLoop(items, chanClosed, script, connClosed);
      r.stop == Waiting ==> r.consumed == |items| && !chanClosed
  {
    if items != [] && items[0].Some? && !connClosed {
      var (step, rest) := NextWrite(script, |items[0].value|);
      if step.err.None? && !(0 < step.n < |items[0].value|) {
        WaitsOnlyWhenEmptied(items[1..], chanClosed, rest, false);
      }
    }
  }

  /** A write reporting 0 bytes and no error moves on to the next item. */
  lemma ZeroCountWriteContinues(b: seq<byte>, items: seq<Item>, chanClosed: bool, script: seq<WriteStep>)
    ensures var r := WriteLoop(items, chanClosed, script, false);
      WriteLoop([Some(b)] + items, chanClosed, [WriteStep(0, None)] + script, false)
        == WriteLoopOutcome([b] + r.payloads, r.consumed + 1, r.rest, r.stop)
  {
    assert ([Some(b)] + items)[1..] == items;
    assert ([WriteStep(0, None)] + script)[1..] == script;
  }

  /** A write reporting some but not all of the chunk's bytes ends the loop
      with that chunk as the last payload. */
  lemma PartialWriteStops(b: seq<byte>, n: nat, items: seq<Item>, chanClosed: bool, script: seq<WriteStep>)
    requires 0 < n < |b|
    ensures WriteLoop([Some(b)] + items, chanClosed, [WriteStep(n, None)] + script, false)
      == WriteLoopOutcome([b], 1, script, AtPartialWrite)
  {
    assert ([WriteStep(n, None)] + script)[1..] == script;
  }

  /** Every scripted write for a queued chunk succeeds and is not partial:
      it reports 0 bytes or at least the whole chunk. Writes past the end of
      the script succeed in full. */
  predicate WholeWrites(queued: seq<Item>, script: seq<WriteStep>)
  {
    forall i :: 0 <= i < |queued| && i < |script| ==>
      script[i].err.None? && (queued[i].None? || !(0 < script[i].n < |queued[i].value|))
  }

  /** With whole writes, the write loop writes every chunk queued before the
      marker, in order, takes the marker, and stops there. */
  lemma {:induction false} WriteLoopWritesAll(queued: seq<Item>, tail: seq<Item>, chanClosed: bool, script: seq<WriteStep>)
    requires forall i :: 0 <= i < |queued| ==> queued[i].Some? && |queued[i].value| <= ReadBlock
    requires WholeWrites(queued, script)
    ensures var r := WriteLoop(queued + [None] + tail, chanClosed, script, false);
      r.payloads == Chunks(queued) && r.consumed == |queued| + 1 && r.stop == AtMarker
    decreases |queued|
  {
    var items := queued + [None] + tail;
    if queued != [] {
      var (step, rest) := NextWrite(script, |queued[0].value|);
      assert items[0] == queued[0];
      assert WholeWrites(queued[1..], rest) by {
        if script != [] {
          assert forall i :: 0 <= i < |rest| ==> rest[i] == script[i + 1];
        }
      }
      assert items[1..] == queued[1..] + [None] + tail;
      WriteLoopWritesAll(queued[1..], tail, chanClosed, rest);
    }
  }

  /** A relay whose reads and writes succeed delivers to `dst` exactly the
      bytes the peer sent to `src` before its stream ended, in order. */
  lemma RelayNoLoss(readScript: seq<ReadStep>, writeScript: seq<WriteStep>, chanClosed: bool)
    requires WholeWrites(ReadLoop(readScript).queued, writeScript)
    ensures var q := ReadQueue(readScript, false, false);
      Flatten(WriteLoop(q, chanClosed, writeScript, false).payloads) == RetriedStream(readScript)
  {
    var queued := ReadLoop(readScript).queued;
    ChunksFitBlock(readScript);
    WriteLoopWritesAll(queued, [], chanClosed, writeScript);
    assert queued + [None] + [] == queued + [None];
    ReadLoopNoLoss(readScript);
  }

  /** The outcome `r` of a later part of a write loop, preceded by the
      payloads `written` and the `taken` items of its earlier turns. */
  function AfterWriting(written: seq<seq<byte>>, taken: nat, r: WriteLoopOutcome): WriteLoopOutcome
  {
    WriteLoopOutcome(written + r.payloads, taken + r.consumed, r.rest, r.stop)
  }

  /** One turn of the write loop on a chunk at the head of the queue. */
  lemma WriteTurn(r0: WriteLoopOutcome, written: seq<seq<byte>>, taken: nat, items: seq<Item>,
                  chanClosed: bool, script: seq<WriteStep>, connClosed: bool)
    requires items != [] && items[0].Some?
    requires r0 == AfterWriting(written, taken, WriteLoop(items, chanClosed, script, connClosed))
    ensures connClosed ==> r0 == WriteLoopOutcome(written, taken + 1, script, AtWriteError)
    ensures !connClosed ==>
      var b := items[0].value;
      var (step, rest) := NextWrite(script, |b|);
      && (step.err.Some? ==> r0 == WriteLoopOutcome(written + [b], taken + 1, rest, AtWriteError))
      && (step.err.None? && 0 < step.n < |b| ==> r0 == WriteLoopOutcome(written + [b], taken + 1, rest, AtPartialWrite))
      && (step.err.None? && !(0 < step.n < |b|) ==>
            r0 == AfterWriting(written + [b], taken + 1, WriteLoop(items[1..], chanClosed, rest, false)))
  {
    if !connClosed {
      var b := items[0].value;
      var (step, rest) := NextWrite(script, |b|);
      if step.err.None? && !(0 < step.n < |b|) {
        var t := WriteLoop(items[1..], chanClosed, rest, false);
        assert written + ([b] + t.payloads) == (written + [b]) + t.payloads;
      }
    }
  }

  /** The queue after the write loop took `consumed` items and the drain
      took at most one more. */
  function Drained(pending: seq<Item>): (q: seq<Item>)
    ensures |q| == if pending == [] then 0 else |pending| - 1
  {
    if pending == [] then [] else pending[1..]
  }

  // ---------------------------------------------------------------------
  // Relay
  // ---------------------------------------------------------------------

  /** `Relay`. The queue's capacity is kept as `queueCap`; the channel model
      does not bound its length. */
  class Relay {
    const id: nat
    const src: Conn
    const dst: Conn
    var readEOF: bool
    var writeEOF: bool
    var done: bool
    const relayChan: Chan<Item>
    const queueCap: nat

    constructor (id: nat, src: Conn, dst: Conn)
      ensures this.id == id && this.src == src && this.dst == dst
      ensures !readEOF && !writeEOF && !done
      ensures fresh(relayChan) && relayChan.items == [] && !relayChan.closed && queueCap == QueueLength
    {
      this.id := id;
      this.src := src;
      this.dst := dst;
      readEOF := false;
      writeEOF := false;
      done := false;
      relayChan := new Chan<Item>();
      queueCap := QueueLength;
    }

    /** `read`: the read loop, then `readEOF` is set and the wait group
        counted down. */
    method Read(conn: Conn, wg: WaitGroup)
      requires !relayChan.closed && wg.counter > 0
      modifies this`readEOF, conn`readScript, conn`readCnt, relayChan`items, wg
      ensures readEOF && wg.counter == old(wg.counter) - 1
      ensures relayChan.items == old(relayChan.items) + ReadQueue(old(conn.readScript), conn.closed, writeEOF)
      ensures conn.readScript == ReadRun(old(conn.readScript), conn.closed, writeEOF).rest
    {
      ReadBlocks(conn);
      readEOF := true;
      wg.Done();
    }

    /** The loop of `read`: read `conn` into the ring buffer at the cursor
        and queue each chunk read, until the write side has ended or a read
        fails with something other than a timeout; such a failure queues the
        end marker. */
    method ReadBlocks(conn: Conn)
      requires !relayChan.closed
      modifies conn`readScript, conn`readCnt, relayChan`items
      ensures relayChan.items == old(relayChan.items) + ReadQueue(old(conn.readScript), conn.closed, writeEOF)
      ensures conn.readScript == ReadRun(old(conn.readScript), conn.closed, writeEOF).rest
    {
      var bufferLen := ReadBlock * (queueCap + 100);
      var buf := new byte[bufferLen];
      var rindex: nat := 0;
      ghost var script0 := conn.readScript;
      ghost var done: seq<Item> := [];
      assert AfterReads(done, ReadLoop(script0)) == ReadLoop(script0);
      while true
        invariant !relayChan.closed && conn.closed == old(conn.closed) && writeEOF == old(writeEOF)
        invariant rindex + ReadBlock <= bufferLen == buf.Length
        invariant relayChan.items == old(relayChan.items) + done
        invariant writeEOF || conn.closed ==> done == [] && conn.readScript == script0
        invariant !writeEOF && !conn.closed ==> ReadLoop(script0) == AfterReads(done, ReadLoop(conn.readScript))
        decreases Weight(conn.readScript)
      {
        if writeEOF {
          break;
        }
        ghost var script := conn.readScript;
        var b, err := ReadAt(conn, buf, rindex);
        if !conn.closed {
          ReadTurn(script0, done, script);
        }
        if err == Some(Timeout) {
          continue;
        } else if err.Some? {
          relayChan.Send(None);
          break;
        }
        if |b| <= 0 {
          continue;
        }
        relayChan.Send(Some(b));
        done := done + [Some(b)];
        rindex := AdvanceCursor(rindex, |b|, bufferLen);
      }
    }

    /** `write`: the write loop; then `writeEOF` is set, one more item is
        taken off the queue if any is pending, and the wait group counted
        down. `finished` is false where the Go routine would wait on an
        empty queue. */
    method Write(conn: Conn, wg: WaitGroup) returns (finished: bool)
      requires wg.counter > 0
      modifies this`writeEOF, relayChan`items, conn`writeScript, conn`writeCnt, conn`writes, wg
      ensures var r := WriteLoop(old(relayChan.items), relayChan.closed, old(conn.writeScript), old(conn.closed));
        && finished == (r.stop != Waiting)
        && conn.writes == old(conn.writes) + r.payloads && conn.writeScript == r.rest
        && (finished ==>
              writeEOF && wg.counter == old(wg.counter) - 1
              && relayChan.items == Drained(old(relayChan.items)[r.consumed..]))
        && (!finished ==> writeEOF == old(writeEOF) && wg.counter == old(wg.counter) && relayChan.items == [])
    {
      WaitsOnlyWhenEmptied(relayChan.items, relayChan.closed, conn.writeScript, conn.closed);
      finished := WriteBlocks(conn);
      if !finished {
        return;
      }
      writeEOF := true;
      if |relayChan.items| > 0 {
        var _ := relayChan.Recv();
      }
      wg.Done();
    }

    /** The loop of `write`: take items off the queue and write each chunk
        to `conn`, until the end marker, a closed queue, a write error or a
        partial write. */
    method WriteBlocks(conn: Conn) returns (finished: bool)
      modifies relayChan`items, conn`writeScript, conn`writeCnt, conn`writes
      ensures var r := WriteLoop(old(relayChan.items), relayChan.closed, old(conn.writeScript), old(conn.closed));
        && finished == (r.stop != Waiting)
        && relayChan.items == old(relayChan.items)[r.consumed..]
        && conn.writes == old(conn.writes) + r.payloads && conn.writeScript == r.rest
    {
      ghost var items0 := relayChan.items;
      ghost var r0 := WriteLoop(relayChan.items, relayChan.closed, conn.writeScript, conn.closed);
      ghost var taken := 0;
      ghost var written: seq<seq<byte>> := [];
      while true
        invariant relayChan.closed == old(relayChan.closed) && conn.closed == old(conn.closed)
        invariant taken <= |items0| && relayChan.items == items0[taken..]
        invariant conn.writes == old(conn.writes) + written
        invariant r0 == AfterWriting(written, taken, WriteLoop(relayChan.items, relayChan.closed, conn.writeScript, conn.closed))
        decreases |relayChan.items|
      {
        ghost var items := relayChan.items;
        ghost var script := conn.writeScript;
        var rcv := relayChan.Recv();
        if rcv.WouldBlock? {
          return false;
        }
        if rcv.Closed? || rcv.value.None? {
          taken := taken + if rcv.Closed? then 0 else 1;
          return true;
        }
        WriteTurn(r0, written, taken, items, relayChan.closed, script, conn.closed);
        var buf := rcv.value.value;
        var n, err := conn.Write(buf);
        taken := taken + 1;
        written := written + [buf];
        if err.Some? {
          return true;
        } else if n > 0 && n < |buf| {
          return true;
        }
      }
    }

    /** `run`: the read loop from `src`, then the write loop to `dst`, both
        counted in a wait group; `done` is set, and `true` sent on `sch`,
        only after both have ended. */
    method Run(sch: Chan<bool>)
      requires !relayChan.closed && !sch.closed && !writeEOF
      modifies this`readEOF, this`writeEOF, this`done, relayChan`items, sch`items
      modifies src`readScript, src`readCnt, dst`writeScript, dst`writeCnt, dst`writes
      ensures readEOF && writeEOF && done
      ensures sch.items == old(sch.items) + [true]
      ensures dst.writes == old(dst.writes) +
        WriteLoop(old(relayChan.items) + ReadQueue(old(src.readScript), old(src.closed), false),
                  relayChan.closed, old(dst.writeScript), old(dst.closed)).payloads
    {
      var wg := new WaitGroup();
      wg.Add(2);
      Read(src, wg);
      MarkerEndsWriteLoop(relayChan.items, relayChan.closed, dst.writeScript, dst.closed);
      var finished := Write(dst, wg);
      wg.Wait();
      done := true;
      sch.Send(true);
    }
  }

  /** `makeRelay`: bump the global counter and make a relay with it as id,
      all flags false and an empty queue of capacity `QueueLength`. */
  method MakeRelay(g: Globals, src: Conn, dst: Conn) returns (r: Relay)
    modifies g
    ensures g.relayGlobalCounter == Incremented(old(g.relayGlobalCounter))
    ensures fresh(r) && r.id == g.relayGlobalCounter && r.src == src && r.dst == dst
    ensures !r.readEOF && !r.writeEOF && !r.done
    ensures fresh(r.relayChan) && r.relayChan.items == [] && !r.relayChan.closed && r.queueCap == QueueLength
  {
    g.relayGlobalCounter := Incremented(g.relayGlobalCounter);
    r := new Relay(g.relayGlobalCounter, src, dst);
  }
}
