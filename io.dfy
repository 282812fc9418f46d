/** The connections, channels and wait groups the relays work with, as
    sequential objects. A connection follows a script of read and write
    outcomes, the way the test suite's connection mock does; a channel is a
    FIFO queue; a wait group is a counter. */
module Io {
  import opened Wrappers
  import opened Text

  /** Why a read or a write failed: end of stream, a deadline that expired,
      or any other error. */
  datatype Failure = EOF | Timeout | Broken

  /** One scripted read: bytes the peer has sent, or a failure. */
  datatype ReadStep = Data(bytes: seq<byte>) | Fail(failure: Failure)

  /** One scripted write: the count `Write` reports and its error, if any. */
  datatype WriteStep = WriteStep(n: nat, err: Option<Failure>)

  /** What one `Read` into `room` bytes returns, and the script left after it. */
  datatype ReadOutcome = ReadOutcome(data: seq<byte>, err: Option<Failure>, rest: seq<ReadStep>)

  /** A read takes as many pending bytes as fit and leaves the others for the
      next read; a failure is reported with no bytes; once the script is used
      up the peer has gone and every read reports EOF. */
  function NextRead(script: seq<ReadStep>, room: nat): (o: ReadOutcome)
    ensures |o.data| <= room
    ensures o.err.Some? ==> o.data == []
  {
    if script == [] then ReadOutcome([], Some(EOF), [])
    else match script[0]
      case Fail(f) => ReadOutcome([], Some(f), script[1..])
      case Data(b) =>
        if |b| <= room then ReadOutcome(b, None, script[1..])
        else ReadOutcome(b[..room], None, [Data(b[room..])] + script[1..])
  }

  /** The bytes of a script up to its first failure: everything the peer
      sends before the stream ends. */
  function Stream(script: seq<ReadStep>): seq<byte>
  {
    if script == [] then []
    else match script[0]
      case Fail(_) => []
      case Data(b) => b + Stream(script[1..])
  }

  /** The bytes of a sequence of chunks, one after another. */
  function Flatten(chunks: seq<seq<byte>>): seq<byte>
  {
    if chunks == [] then [] else chunks[0] + Flatten(chunks[1..])
  }

  /** A measure that every successful read with room decreases. */
  function Weight(script: seq<ReadStep>): nat
  {
    if script == [] then 0
    else (match script[0] case Data(b) => |b| + 1 case Fail(_) => 1) + Weight(script[1..])
  }

  /** A read with room consumes part of the script, and what it returns is the
      front of the stream: no byte is lost, repeated or reordered. */
  lemma NextReadProgress(script: seq<ReadStep>, room: nat)
    requires room > 0
    ensures var o := NextRead(script, room);
      && Weight(o.rest) < Weight(script) + (if script == [] then 1 else 0)
      && (o.err.None? ==> Weight(o.rest) < Weight(script) && Stream(script) == o.data + Stream(o.rest))
      && (o.err.Some? ==> Stream(script) == [])
  {
    if script != [] && script[0].Data? && |script[0].bytes| > room {
      var b := script[0].bytes;
      var rest := [Data(b[room..])] + script[1..];
      assert rest[1..] == script[1..];
      assert b == b[..room] + b[room..];
    }
  }

  /** The payload the writer hands to `Write` is described by the next
      scripted step; once the script is used up every write succeeds in full. */
  function NextWrite(script: seq<WriteStep>, len: nat): (WriteStep, seq<WriteStep>)
  {
    if script == [] then (WriteStep(len, None), []) else (script[0], script[1..])
  }

  /** A scripted connection (`net.Conn` as the relays use it). `writes` logs
      every payload passed to a `Write` that reached the connection. */
  class Conn {
    var readScript: seq<ReadStep>
    var writeScript: seq<WriteStep>
    var readCnt: nat
    var writeCnt: nat
    var writes: seq<seq<byte>>
    var closed: bool

    constructor (readSteps: seq<ReadStep>, writeSteps: seq<WriteStep>)
      ensures readScript == readSteps && writeScript == writeSteps
      ensures readCnt == 0 && writeCnt == 0 && writes == [] && !closed
    {
      readScript := readSteps;
      writeScript := writeSteps;
      readCnt := 0;
      writeCnt := 0;
      writes := [];
      closed := false;
    }

    /** `Read(buf[lo:hi])`: on a closed connection EOF without counting the
        call; otherwise the next scripted read, copied into `buf` at `lo`. */
    method Read(buf: array<byte>, lo: nat, hi: nat) returns (n: nat, err: Option<Failure>)
      requires lo <= hi <= buf.Length
      modifies this`readScript, this`readCnt, buf
      ensures old(closed) ==> n == 0 && err == Some(EOF) && readScript == old(readScript)
                              && readCnt == old(readCnt) && buf[..] == old(buf[..])
      ensures !old(closed) ==>
        var o := NextRead(old(readScript), hi - lo);
        && n == |o.data| && err == o.err && readScript == o.rest && readCnt == old(readCnt) + 1
        && lo + n <= hi && buf[lo..lo + n] == o.data
        && buf[..lo] == old(buf[..lo]) && buf[lo + n..] == old(buf[lo + n..])
    {
      if closed {
        return 0, Some(EOF);
      }
      readCnt := readCnt + 1;
      var o := NextRead(readScript, hi - lo);
      readScript := o.rest;
      n, err := |o.data|, o.err;
      ghost var before := buf[..];
      forall i | 0 <= i < n {
        buf[lo + i] := o.data[i];
      }
      assert buf[lo..lo + n] == o.data;
      assert buf[..lo] == before[..lo];
      assert buf[lo + n..] == before[lo + n..];
    }

    /** `Write(payload)`: on a closed connection EOF without counting the
        call; otherwise the next scripted outcome, the payload being logged. */
    method Write(payload: seq<byte>) returns (n: nat, err: Option<Failure>)
      modifies this`writeScript, this`writeCnt, this`writes
      ensures old(closed) ==> n == 0 && err == Some(EOF) && writeScript == old(writeScript)
                              && writeCnt == old(writeCnt) && writes == old(writes)
      ensures !old(closed) ==>
        var (step, rest) := NextWrite(old(writeScript), |payload|);
        && n == step.n && err == step.err && writeScript == rest
        && writeCnt == old(writeCnt) + 1 && writes == old(writes) + [payload]
    {
      if closed {
        return 0, Some(EOF);
      }
      writeCnt := writeCnt + 1;
      writes := writes + [payload];
      var (step, rest) := NextWrite(writeScript, |payload|);
      writeScript := rest;
      n, err := step.n, step.err;
    }

    method Close()
      modifies this`closed
      ensures closed
    {
      closed := true;
    }
  }

  /** What a receive finds: an item, a closed and empty channel, or an empty
      open channel, on which a receiver would wait. */
  datatype Received<T> = Item(value: T) | Closed | WouldBlock

  /** A Go channel as a FIFO queue. Capacity and the blocking of senders are
      not modelled. */
  class Chan<T> {
    var items: seq<T>
    var closed: bool

    constructor ()
      ensures items == [] && !closed
    {
      items := [];
      closed := false;
    }

    /** Sending on a closed channel panics in Go. */
    method Send(x: T)
      requires !closed
      modifies this`items
      ensures items == old(items) + [x]
    {
      items := items + [x];
    }

    method Recv() returns (r: Received<T>)
      modifies this`items
      ensures old(items) != [] ==> r == Item(old(items)[0]) && items == old(items)[1..]
      ensures old(items) == [] ==> items == [] && r == (if closed then Closed else WouldBlock)
    {
      if items != [] {
        r := Item(items[0]);
        items := items[1..];
      } else if closed {
        r := Closed;
      } else {
        r := WouldBlock;
      }
    }

    /** Closing a closed channel panics in Go. */
    method Close()
      requires !closed
      modifies this`closed
      ensures closed
    {
      closed := true;
    }
  }

  /** `sync.WaitGroup` as its counter. A negative counter panics in Go, and
      `Wait` returns only at zero, which a sequential caller must establish. */
  class WaitGroup {
    var counter: nat

    constructor ()
      ensures counter == 0
    {
      counter := 0;
    }

    method Add(delta: nat)
      modifies this
      ensures counter == old(counter) + delta
    {
      counter := counter + delta;
    }

    method Done()
      requires counter > 0
      modifies this
      ensures counter == old(counter) - 1
    {
      counter := counter - 1;
    }

    method Wait()
      requires counter == 0
    {
    }
  }
}
