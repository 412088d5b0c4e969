/** The stream a WebSocket decoder reads from, fed from Envoy's read buffer: first by copying
    without draining, so a failed handshake can be left to the next filter, then by draining. */
module EnvoyStreams {
  import opened Basics

  /** The connection as the filter sees it: Envoy's read buffer in slices of any size, and the
      bytes written back. */
  class Connection {
    var chunks: seq<Bytes>
    var written: Bytes

    ghost function Buffer(): Bytes
      reads this
    {
      Concat(chunks)
    }

    constructor ()
      ensures Buffer() == [] && written == []
    {
      chunks, written := [], [];
    }

    method DrainReadBuffer(n: nat)
      requires n <= |Buffer()|
      modifies this`chunks
      ensures Buffer() == old(Buffer())[n..]
    {
      var rest := Concat(chunks)[n..];
      chunks := [rest];
      ConcatPush([], rest);
      assert [] + [rest] == [rest];
    }

    method Write(data: Bytes)
      modifies this`written
      ensures written == old(written) + data
    {
      written := written + data;
    }
  }

  /** The most one block read takes from Envoy. */
  const READ_BLOCK_SIZE: nat := 256 * 1024

  datatype ReadResult = Read(count: nat) | EndOfStream | WouldBlock

  /** What the stream holds and what Envoy does: `total` counts the bytes copied so far. */
  datatype Buffers = Buffers(buffer: Bytes, total: nat, envoy: Bytes)

  /** During the handshake, Envoy keeps what is copied. */
  function Copied(b: Buffers): Buffers
    requires b.total <= |b.envoy|
  {
    b.(buffer := b.buffer + b.envoy[b.total..], total := |b.envoy|)
  }

  /** After it, bytes copied are drained. */
  function Moved(b: Buffers, n: nat): Buffers
    requires n <= |b.envoy|
  {
    Buffers(b.buffer + b.envoy[..n], b.total + n, b.envoy[n..])
  }

  function BlockLength(envoy: Bytes): nat {
    Min(|envoy|, READ_BLOCK_SIZE)
  }

  /** A block is as much as there is, up to its size. */
  lemma BlockIsFull(b: Buffers)
    ensures var n := BlockLength(b.envoy);
            n <= READ_BLOCK_SIZE && (n < READ_BLOCK_SIZE ==> Moved(b, n).envoy == [])
  {
  }

  /** The first `take` bytes of a slice carry on the bytes taken before it. */
  lemma TakeFromChunk(chunks: seq<Bytes>, k: nat, taken: nat, take: nat)
    requires k < |chunks| && take <= |chunks[k]| && taken == |Concat(chunks[..k])|
    ensures taken + take <= |Concat(chunks)|
    ensures Concat(chunks)[..taken] + chunks[k][..take] == Concat(chunks)[..taken + take]
    ensures |Concat(chunks[..k + 1])| == taken + |chunks[k]|
  {
    ConcatNext(chunks, k);
    ConcatPrefix(chunks, k);
    ConcatPrefix(chunks, k + 1);
  }

  class EnvoyStream {
    var readBuffer: Bytes
    var totalRead: nat
    var writeBuffer: Bytes
    var closed: bool

    constructor ()
      ensures readBuffer == [] && totalRead == 0 && writeBuffer == [] && !closed
    {
      readBuffer, totalRead, writeBuffer, closed := [], 0, [], false;
    }

    ghost function View(connection: Connection): Buffers
      reads this, connection
    {
      Buffers(readBuffer, totalRead, connection.Buffer())
    }

    /** During the handshake: takes the bytes not copied yet and leaves Envoy's buffer alone. */
    method ReadFromBuffered(connection: Connection)
      requires totalRead <= |connection.Buffer()|
      modifies this`readBuffer, this`totalRead
      ensures View(connection) == Copied(old(View(connection)))
    {
      var chunks := connection.chunks;
      var toRead := |Concat(chunks)| - totalRead;
      var toSkip := totalRead;
      for k := 0 to |chunks|
        invariant totalRead == old(totalRead)
        invariant var seen := Concat(chunks[..k]);
                  if |seen| <= totalRead then toSkip == totalRead - |seen| && readBuffer == old(readBuffer)
                  else toSkip == 0 && readBuffer == old(readBuffer) + seen[totalRead..]
      {
        ConcatNext(chunks, k);
        if toSkip == 0 {
          readBuffer := readBuffer + chunks[k];
        } else if toSkip >= |chunks[k]| {
          toSkip := toSkip - |chunks[k]|;
        } else {
          readBuffer := readBuffer + chunks[k][toSkip..];
          toSkip := 0;
        }
      }
      assert chunks[..|chunks|] == chunks;
      totalRead := totalRead + toRead;
    }

    /** After the handshake: takes and drains everything. */
    method ReadFrom(connection: Connection)
      modifies this`readBuffer, this`totalRead, connection`chunks
      ensures View(connection) == Moved(old(View(connection)), |old(connection.Buffer())|)
    {
      var chunks := connection.chunks;
      var totalSize := |Concat(chunks)|;
      if totalSize == 0 {
        return;
      }
      for k := 0 to |chunks|
        invariant readBuffer == old(readBuffer) + Concat(chunks[..k])
        invariant totalRead == old(totalRead) && connection.chunks == chunks
      {
        ConcatNext(chunks, k);
        readBuffer := readBuffer + chunks[k];
      }
      assert chunks[..|chunks|] == chunks;
      totalRead := totalRead + totalSize;
      connection.DrainReadBuffer(totalSize);
    }

    /** Copies the first `n` bytes of the slices. */
    method CopyFirst(chunks: seq<Bytes>, n: nat)
      requires n <= |Concat(chunks)|
      modifies this`readBuffer
      ensures readBuffer == old(readBuffer) + Concat(chunks)[..n]
    {
      ghost var before := readBuffer;
      var remaining: nat := n;
      var k := 0;
      while k < |chunks| && remaining > 0
        invariant k <= |chunks| && remaining <= n
        invariant readBuffer == before + Concat(chunks)[..n - remaining]
        invariant n - remaining == Min(|Concat(chunks[..k])|, n)
      {
        var take := Min(|chunks[k]|, remaining);
        TakeFromChunk(chunks, k, n - remaining, take);
        Assoc(before, Concat(chunks)[..n - remaining], chunks[k][..take]);
        readBuffer := readBuffer + chunks[k][..take];
        remaining := remaining - take;
        k := k + 1;
      }
      if k == |chunks| {
        assert chunks[..k] == chunks;
      }
    }

    /** Takes and drains at most one block; the rest stays in Envoy, which then applies
        backpressure. */
    method ReadBlock(connection: Connection) returns (taken: nat)
      modifies this`readBuffer, this`totalRead, connection`chunks
      ensures taken == BlockLength(old(connection.Buffer()))
      ensures View(connection) == Moved(old(View(connection)), taken)
    {
      var chunks := connection.chunks;
      var totalSize := |Concat(chunks)|;
      if totalSize == 0 {
        return 0;
      }
      taken := Min(totalSize, READ_BLOCK_SIZE);
      CopyFirst(chunks, taken);
      totalRead := totalRead + taken;
      connection.DrainReadBuffer(taken);
    }

    method WriteTo(connection: Connection)
      modifies this`writeBuffer, connection`written
      ensures writeBuffer == []
      ensures connection.written == old(connection.written) + old(writeBuffer)
    {
      if writeBuffer == [] {
        return;
      }
      connection.Write(writeBuffer);
      writeBuffer := [];
    }

    /** The decoder's read. */
    method Read(buf: array<byte>) returns (r: ReadResult)
      modifies this`readBuffer, buf
      ensures old(readBuffer) == [] ==> r == if closed then EndOfStream else WouldBlock
      ensures old(readBuffer) != [] ==> r == ReadResult.Read(Min(|old(readBuffer)|, buf.Length))
      ensures var n := if r.Read? then r.count else 0;
              && n <= buf.Length && buf[..n] + readBuffer == old(readBuffer)
              && buf[n..] == old(buf[n..])
    {
      if readBuffer == [] {
        return if closed then EndOfStream else WouldBlock;
      }
      var n := Min(|readBuffer|, buf.Length);
      forall k | 0 <= k < n {
        buf[k] := readBuffer[k];
      }
      assert buf[..n] == readBuffer[..n];
      readBuffer := readBuffer[n..];
      r := ReadResult.Read(n);
    }

    method Write(data: Bytes) returns (ok: bool)
      modifies this`writeBuffer
      ensures ok == !closed
      ensures writeBuffer == old(writeBuffer) + (if ok then data else [])
    {
      if closed {
        return false;
      }
      writeBuffer := writeBuffer + data;
      ok := true;
    }
  }

  datatype Phase = Handshake | Accepted | NotWebSocket

  /** `arrived` is everything the client sent; `got` is what the decoder has read. `copied` says
      that nothing arrived since the last copy, as within one read callback. */
  datatype State = State(phase: Phase, arrived: Bytes, buffers: Buffers, got: Bytes, copied: bool)

  const START := State(Handshake, [], Buffers([], 0, []), [], false)

  datatype Action =
    | Arrive(data: Bytes)
    | CopyBuffered       // `ReadFromBuffered`, during the handshake
    | DecoderRead(n: nat)
    | Accept             // the handshake request is complete; Envoy's buffer is drained
    | Decline            // not a WebSocket request
    | Block | All        // `ReadBlock` and `ReadFrom`

  predicate Enabled(s: State, a: Action) {
    match a
    case Arrive(_) => true
    case CopyBuffered => s.phase.Handshake? && s.buffers.total <= |s.buffers.envoy|
    case DecoderRead(n) => n <= |s.buffers.buffer|
    case Accept => s.phase.Handshake? && s.copied
    case Decline => s.phase.Handshake?
    case Block => s.phase.Accepted?
    case All => s.phase.Accepted?
  }

  function Apply(s: State, a: Action): State
    requires Enabled(s, a)
  {
    var b := s.buffers;
    match a
    case Arrive(data) =>
      s.(arrived := s.arrived + data, buffers := b.(envoy := b.envoy + data), copied := false)
    case CopyBuffered => s.(buffers := Copied(b), copied := true)
    case DecoderRead(n) => s.(got := s.got + b.buffer[..n], buffers := b.(buffer := b.buffer[n..]))
    case Accept => s.(phase := Accepted, buffers := b.(envoy := []))
    case Decline => s.(phase := NotWebSocket)
    case Block => s.(buffers := Moved(b, BlockLength(b.envoy)))
    case All => s.(buffers := Moved(b, |b.envoy|))
  }

  predicate CanRun(s: State, actions: seq<Action>)
    decreases |actions|
  {
    actions == [] || (Enabled(s, actions[0]) && CanRun(Apply(s, actions[0]), actions[1..]))
  }

  function Run(s: State, actions: seq<Action>): State
    requires CanRun(s, actions)
    decreases |actions|
  {
    if actions == [] then s else Run(Apply(s, actions[0]), actions[1..])
  }

  predicate Inv(s: State) {
    var b := s.buffers;
    && b.total <= |s.arrived|
    && s.got + b.buffer == s.arrived[..b.total]
    && (if s.phase.Accepted? then b.envoy == s.arrived[b.total..] else b.envoy == s.arrived)
    && (s.phase.Handshake? && s.copied ==> b.total == |s.arrived|)
  }

  /** Copying `n` more bytes of the stream keeps the buffer in step with it. */
  lemma NextBytes(arrived: Bytes, got: Bytes, buffer: Bytes, total: nat, n: nat)
    requires total + n <= |arrived| && got + buffer == arrived[..total]
    ensures got + (buffer + arrived[total..][..n]) == arrived[..total + n]
    ensures arrived[total..][n..] == arrived[total + n..]
  {
    assert got + (buffer + arrived[total..][..n]) == arrived[..total] + arrived[total..total + n];
  }

  lemma CopyKeepsInv(s: State)
    requires Inv(s) && Enabled(s, CopyBuffered)
    ensures Inv(Apply(s, CopyBuffered))
  {
    var b := s.buffers;
    var rest := s.arrived[b.total..];
    NextBytes(s.arrived, s.got, b.buffer, b.total, |rest|);
    assert !s.phase.Accepted? && rest[..|rest|] == rest;
  }

  lemma MoveKeepsInv(s: State, n: nat)
    requires Inv(s) && s.phase.Accepted? && n <= |s.buffers.envoy|
    ensures Inv(s.(buffers := Moved(s.buffers, n)))
  {
    NextBytes(s.arrived, s.got, s.buffers.buffer, s.buffers.total, n);
  }

  lemma ArriveKeepsInv(s: State, data: Bytes)
    requires Inv(s)
    ensures Inv(Apply(s, Arrive(data)))
  {
    var total := s.buffers.total;
    assert (s.arrived + data)[..total] == s.arrived[..total];
    assert (s.arrived + data)[total..] == s.arrived[total..] + data;
  }

  lemma StepKeepsInv(s: State, a: Action)
    requires Inv(s) && Enabled(s, a)
    ensures Inv(Apply(s, a))
  {
    match a
    case Arrive(data) => ArriveKeepsInv(s, data);
    case DecoderRead(n) =>
      var buffer := s.buffers.buffer;
      assert s.got + buffer[..n] + buffer[n..] == s.got + buffer;
    case CopyBuffered => CopyKeepsInv(s);
    case Block => MoveKeepsInv(s, BlockLength(s.buffers.envoy));
    case All => MoveKeepsInv(s, |s.buffers.envoy|);
    case _ =>
  }

  lemma {:induction false} RunKeepsInv(s: State, actions: seq<Action>)
    requires Inv(s) && CanRun(s, actions)
    ensures Inv(Run(s, actions))
    decreases |actions|
  {
    if actions != [] {
      StepKeepsInv(s, actions[0]);
      RunKeepsInv(Apply(s, actions[0]), actions[1..]);
    }
  }

  /** In every run: what the decoder has read and what is buffered for it are the first `total`
      bytes the client sent. A connection that is not a WebSocket is left to the next filter
      untouched, and one that is loses and repeats nothing when the buffer changes from
      copied to drained. A copy can always be taken. */
  lemma StreamIsExact(actions: seq<Action>)
    requires CanRun(START, actions)
    ensures var s := Run(START, actions);
            var b := s.buffers;
            && b.total <= |s.arrived| && s.got + b.buffer == s.arrived[..b.total]
            && s.got <= s.arrived
            && (!s.phase.Accepted? ==> b.envoy == s.arrived)
            && (s.phase.Accepted? ==> s.got + b.buffer + b.envoy == s.arrived)
            && (s.phase.Handshake? ==> Enabled(s, CopyBuffered))
  {
    RunKeepsInv(START, actions);
    var s := Run(START, actions);
    assert s.arrived == s.arrived[..s.buffers.total] + s.arrived[s.buffers.total..];
  }
}
