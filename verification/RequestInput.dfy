/** `wsgi.input`: blocking reads of a body that Envoy delivers in pieces of any size at any
    time, answered by the filter from Envoy's buffers and its own carry-over buffer. */
module RequestInputs {
  import opened Basics
  import opened EventBridges
  import opened Envoy

  /** A read request. A negative size means no limit; size 0 never reaches the filter. */
  datatype Read = Wait | Raw(size: int) | Line(size: int)

  /** What the filter sends back; `closed` marks the last piece of the body. */
  datatype Body = Body(body: Bytes, closed: bool)

  // ---------------------------------------------------------------- the ideal reader

  /** `line` is the line that `rest` starts with: it ends at the first newline, after `size`
      bytes if `size` is positive, or where `rest` ends. */
  ghost predicate IsLine(rest: Bytes, size: int, line: Bytes) {
    && line <= rest
    && (forall k | 0 <= k < |line| - 1 :: line[k] != NEWLINE)
    && (size > 0 ==> |line| <= size)
    && (line == rest || (line != [] && (line[|line| - 1] == NEWLINE || |line| == size)))
  }

  /** A line can be no longer than another line of the same text: there is only one. */
  lemma LineIsUnique(rest: Bytes, size: int, a: Bytes, b: Bytes)
    requires IsLine(rest, size, a) && IsLine(rest, size, b)
    ensures a == b
  {
    assert a == rest[..|a|] && b == rest[..|b|];
  }

  /** `result` is a correct answer to a read when `rest` is what is left of the whole body.
      A limited raw read may return less than asked for, but something unless at the end. */
  ghost predicate Answers(request: Read, rest: Bytes, result: Bytes) {
    match request
    case Wait => false
    case Raw(size) =>
      if size < 0 then result == rest
      else result <= rest && |result| <= size && (size > 0 && result == [] ==> rest == [])
    case Line(size) =>
      if size == 0 then result == [] else IsLine(rest, size, result)
  }

  datatype Answer = Answer(request: Read, result: Bytes)

  function Consumed(log: seq<Answer>): Bytes {
    if log == [] then [] else Consumed(log[..|log| - 1]) + log[|log| - 1].result
  }

  /** Every answer is what the ideal reader over `body` gives, each starting where the one
      before stopped. */
  ghost predicate IdealLog(log: seq<Answer>, body: Bytes) {
    forall k | 0 <= k < |log| ::
      Consumed(log[..k]) <= body && Answers(log[k].request, body[|Consumed(log[..k])|..], log[k].result)
  }

  lemma IdealLogPush(log: seq<Answer>, body: Bytes, answer: Answer)
    requires IdealLog(log, body) && Consumed(log) <= body
    requires Answers(answer.request, body[|Consumed(log)|..], answer.result)
    ensures IdealLog(log + [answer], body)
    ensures Consumed(log + [answer]) == Consumed(log) + answer.result
  {
    var all := log + [answer];
    assert all[..|log|] == log;
    assert forall k | 0 <= k < |log| :: all[k] == log[k] && all[..k] == log[..k];
  }

  // ---------------------------------------------------------------- the filter's side

  datatype Filter = Filter(
    pending: Read, readBuffer: Bytes, requestClosed: bool, buffered: Bytes, received: Bytes)

  function Available(f: Filter): Bytes {
    f.buffered + f.received
  }

  /** The filter after draining the first `n` readable bytes. */
  function DrainedBy(f: Filter, n: nat): Filter
    requires n <= |Available(f)|
  {
    if n <= |f.buffered| then f.(buffered := f.buffered[n..])
    else f.(buffered := [], received := f.received[n - |f.buffered|..])
  }

  /** Moves bytes to the end of `line` until it ends in a newline or has `size` bytes: whether
      that happened, and how many bytes were moved. */
  function Scan(line: Bytes, available: Bytes, size: int): (bool, nat)
    decreases available
  {
    if available == [] then (false, 0)
    else if available[0] == NEWLINE || (size > 0 && |line| + 1 >= size) then (true, 1)
    else
      var (stop, n) := Scan(line + [available[0]], available[1..], size);
      (stop, n + 1)
  }

  lemma {:induction false} ScanBound(line: Bytes, available: Bytes, size: int)
    ensures Scan(line, available, size).1 <= |available|
    ensures !Scan(line, available, size).0 ==> Scan(line, available, size).1 == |available|
    decreases available
  {
    if available != [] {
      ScanBound(line + [available[0]], available[1..], size);
    }
  }

  /** Scanning one list of slices and then another is scanning them joined. */
  lemma {:induction false} ScanAppend(line: Bytes, a: Bytes, b: Bytes, size: int)
    ensures Scan(line, a + b, size) ==
            if Scan(line, a, size).0 then Scan(line, a, size)
            else (Scan(line + a, b, size).0, |a| + Scan(line + a, b, size).1)
    decreases a
  {
    ScanBound(line, a, size);
    if a == [] {
      assert a + b == b && line + a == line;
    } else {
      assert (a + b)[1..] == a[1..] + b;
      assert line + [a[0]] + a[1..] == line + a;
      ScanAppend(line + [a[0]], a[1..], b, size);
    }
  }

  /** Up to `size` readable bytes. */
  function RawAnswered(f: Filter, size: nat): (Filter, Option<Body>) {
    var n := Min(size, |Available(f)|);
    var f' := DrainedBy(f, n).(pending := Wait);
    (f', Some(Body(Available(f)[..n], Available(f') == [] && f.requestClosed)))
  }

  /** Everything, answered once the request is closed. */
  function AllCollected(f: Filter): (Filter, Option<Body>) {
    var f' := DrainedBy(f, |Available(f)|).(readBuffer := f.readBuffer + Available(f));
    if f.requestClosed then (f'.(pending := Wait, readBuffer := []), Some(Body(f'.readBuffer, true)))
    else (f', None)
  }

  function LineAnswered(f: Filter, size: int): (Filter, Option<Body>) {
    ScanBound(f.readBuffer, Available(f), size);
    var (stop, n) := Scan(f.readBuffer, Available(f), size);
    var line := f.readBuffer + Available(f)[..n];
    var f' := DrainedBy(f, n);
    if stop || f.requestClosed then
      (f'.(pending := Wait, readBuffer := []), Some(Body(line, Available(f') == [] && f.requestClosed)))
    else (f'.(readBuffer := line), None)
  }

  /** `process_read` once the newest request is pending. */
  function Processed(f: Filter): (Filter, Option<Body>) {
    if Available(f) == [] && !f.requestClosed then (f, None)
    else
      match f.pending
      case Wait => (f, None)
      case Raw(size) => if size > 0 then RawAnswered(f, size) else AllCollected(f)
      case Line(size) => LineAnswered(f, size)
  }

  lemma JoinRest(chunks: seq<Bytes>, k: nat)
    requires k <= |chunks|
    ensures Concat(chunks) == Concat(chunks[..k]) + Concat(chunks[k..])
  {
    assert chunks == chunks[..k] + chunks[k..];
    ConcatAppend(chunks[..k], chunks[k..]);
  }

  /** Draining up to `size` bytes takes what is buffered first. */
  lemma DrainedUpTo(f: Filter, size: nat)
    ensures var n := Min(size, |Available(f)|);
            if |f.buffered| < size then
              var more := Min(size - |f.buffered|, |f.received|);
              && Available(f)[..n] == f.buffered[..|f.buffered|] + f.received[..more]
              && DrainedBy(f, n) == f.(buffered := f.buffered[|f.buffered|..], received := f.received[more..])
            else
              Available(f)[..n] == f.buffered[..size] && DrainedBy(f, n) == f.(buffered := f.buffered[size..])
  {
  }

  /** Scanning what is buffered and then what is received. */
  lemma ScanBoth(f: Filter, size: int)
    ensures var (stop, n) := Scan(f.readBuffer, Available(f), size);
            var (stop1, n1) := Scan(f.readBuffer, f.buffered, size);
            && n <= |Available(f)| && n1 <= |f.buffered|
            && (if stop1 then
                  && stop && n == n1
                  && Available(f)[..n] == f.buffered[..n] && DrainedBy(f, n) == f.(buffered := f.buffered[n..])
                else
                  var (stop2, n2) := Scan(f.readBuffer + f.buffered, f.received, size);
                  && n1 == |f.buffered| && n2 <= |f.received|
                  && stop == stop2 && n == |f.buffered| + n2
                  && f.readBuffer + Available(f)[..n] == f.readBuffer + f.buffered[..n1] + f.received[..n2]
                  && DrainedBy(f, n) == f.(buffered := f.buffered[n1..], received := f.received[n2..]))
  {
    ScanAppend(f.readBuffer, f.buffered, f.received, size);
    ScanBound(f.readBuffer, f.buffered, size);
    ScanBound(f.readBuffer + f.buffered, f.received, size);
  }

  /** Scanning one slice further. */
  lemma ScanSlice(line: Bytes, chunks: seq<Bytes>, k: nat, size: int)
    requires k < |chunks| && !Scan(line, Concat(chunks[..k]), size).0
    ensures var before := Concat(chunks[..k]);
            var (stop, n) := Scan(line + before, chunks[k], size);
            && Concat(chunks[..k + 1]) == before + chunks[k]
            && n <= |chunks[k]| && |before| + n <= |Concat(chunks)|
            && (if stop then
                  && Scan(line, Concat(chunks), size) == (true, |before| + n)
                  && Concat(chunks)[..|before| + n] == before + chunks[k][..n]
                else n == |chunks[k]| && !Scan(line, Concat(chunks[..k + 1]), size).0)
  {
    var before := Concat(chunks[..k]);
    ScanAppend(line, before, chunks[k], size);
    ScanBound(line + before, chunks[k], size);
    ConcatNext(chunks, k);
    JoinRest(chunks, k + 1);
    ScanAppend(line, Concat(chunks[..k + 1]), Concat(chunks[k + 1..]), size);
  }

  class RequestReader {
    var pendingRead: Read
    var readBuffer: Bytes
    var requestClosed: bool
    const bridge: EventBridge<Read>
    const envoy: RequestBody
    var sent: seq<Body>  // everything put on the request body channel

    ghost predicate Valid()
      reads this, bridge
    {
      bridge.Valid()
    }

    ghost function View(): Filter
      reads this, envoy
    {
      Filter(pendingRead, readBuffer, requestClosed, Concat(envoy.buffered), Concat(envoy.received))
    }

    constructor (bridge: EventBridge<Read>, envoy: RequestBody)
      requires bridge.Valid()
      ensures Valid() && this.bridge == bridge && this.envoy == envoy && sent == []
      ensures pendingRead == Wait && readBuffer == [] && !requestClosed
    {
      this.bridge, this.envoy := bridge, envoy;
      pendingRead, readBuffer, requestClosed, sent := Wait, [], false, [];
    }

    method ReadSlice(slice: Bytes, size: int) returns (stop: bool, read: nat)
      modifies this`readBuffer
      ensures (stop, read) == Scan(old(readBuffer), slice, size)
      ensures read <= |slice| && (!stop ==> read == |slice|)
      ensures readBuffer == old(readBuffer) + slice[..read]
    {
      ScanBound(readBuffer, slice, size);
      for j := 0 to |slice|
        invariant readBuffer == old(readBuffer) + slice[..j]
        invariant var (stop, n) := Scan(readBuffer, slice[j..], size);
                  Scan(old(readBuffer), slice, size) == (stop, j + n)
      {
        var b := slice[j];
        assert slice[j..][1..] == slice[j + 1..];
        readBuffer := readBuffer + [b];
        if b == NEWLINE || (size > 0 && |readBuffer| >= size) {
          return true, j + 1;
        }
      }
      stop, read := false, |slice|;
    }

    /** Byte by byte, over slices of any size. */
    method ReadUntilLineOrSize(chunks: seq<Bytes>, size: int) returns (stop: bool, read: nat)
      modifies this`readBuffer
      ensures (stop, read) == Scan(old(readBuffer), Concat(chunks), size)
      ensures read <= |Concat(chunks)| && (!stop ==> read == |Concat(chunks)|)
      ensures readBuffer == old(readBuffer) + Concat(chunks)[..read]
    {
      ghost var line := readBuffer;
      read := 0;
      for k := 0 to |chunks|
        invariant read == |Concat(chunks[..k])|
        invariant readBuffer == line + Concat(chunks[..k])
        invariant !Scan(line, Concat(chunks[..k]), size).0
      {
        ScanSlice(line, chunks, k, size);
        var n;
        stop, n := ReadSlice(chunks[k], size);
        assert readBuffer == line + (Concat(chunks[..k]) + chunks[k][..n]);
        read := read + n;
        if stop {
          return;
        }
        assert chunks[k][..n] == chunks[k];
      }
      assert chunks[..|chunks|] == chunks;
      ScanBound(line, Concat(chunks), size);
      stop := false;
    }

    /** Takes up to `limit` bytes from the given slices. */
    method TakeUpTo(chunks: seq<Bytes>, limit: nat) returns (taken: Bytes)
      ensures taken == Concat(chunks)[..Min(limit, |Concat(chunks)|)]
    {
      taken := [];
      var remaining := limit;
      for k := 0 to |chunks|
        invariant taken == Concat(chunks[..k])[..Min(limit, |Concat(chunks[..k])|)]
        invariant remaining == limit - |taken|
      {
        ConcatNext(chunks, k);
        var toRead := Min(remaining, |chunks[k]|);
        taken := taken + chunks[k][..toRead];
        remaining := remaining - toRead;
        if remaining == 0 {
          ConcatPrefix(chunks, k + 1);
          return;
        }
      }
      assert chunks[..|chunks|] == chunks;
    }

    /** Takes the requests that wait; the last one becomes the pending read. */
    method TakeRequests()
      requires Valid()
      modifies this`pendingRead, bridge
      ensures Valid() && bridge.View() == EventBridges.Drained(old(bridge.View()))
      ensures pendingRead == var waiting := Queue(old(bridge.View()));
                             if waiting == [] then old(pendingRead) else waiting[|waiting| - 1]
    {
      var requests := bridge.Drain();
      for k := 0 to |requests|
        invariant bridge.Valid() && bridge.View() == EventBridges.Drained(old(bridge.View()))
        invariant pendingRead == if k == 0 then old(pendingRead) else requests[k - 1]
      {
        pendingRead := requests[k];
      }
    }

    /** `process_read`. If several requests were waiting only the last would be kept; a reader
        never sends a second one before the first is answered. */
    method ProcessRead()
      requires Valid()
      modifies this, bridge, envoy
      ensures Valid() && bridge.View() == EventBridges.Drained(old(bridge.View()))
      ensures var waiting := Queue(old(bridge.View()));
              var f := if waiting == [] then old(View())
                       else old(View()).(pending := waiting[|waiting| - 1]);
              && View() == Processed(f).0
              && sent == old(sent) + (if Processed(f).1.Some? then [Processed(f).1.value] else [])
    {
      TakeRequests();
      var readable := envoy.HasRequestBody();
      if !readable && !requestClosed {
        return;
      }
      match pendingRead {
        case Wait =>
        case Raw(size) =>
          if size > 0 {
            AnswerRaw(size);
          } else {
            CollectAll();
          }
        case Line(size) => AnswerLine(size);
      }
    }

    method TakeBuffered(limit: nat) returns (taken: Bytes)
      modifies envoy`buffered
      ensures var n := Min(limit, |old(Concat(envoy.buffered))|);
              taken == old(Concat(envoy.buffered))[..n] && Concat(envoy.buffered) == old(Concat(envoy.buffered))[n..]
    {
      taken := TakeUpTo(envoy.buffered, limit);
      envoy.DrainBuffered(|taken|);
    }

    method TakeReceived(limit: nat) returns (taken: Bytes)
      modifies envoy`received
      ensures var n := Min(limit, |old(Concat(envoy.received))|);
              taken == old(Concat(envoy.received))[..n] && Concat(envoy.received) == old(Concat(envoy.received))[n..]
    {
      taken := TakeUpTo(envoy.received, limit);
      envoy.DrainReceived(|taken|);
    }

    /** Takes up to `size` readable bytes, buffered ones first. */
    method DrainUpTo(size: nat) returns (body: Bytes)
      modifies envoy
      ensures var f := old(View());
              var n := Min(size, |Available(f)|);
              body == Available(f)[..n] && View() == DrainedBy(f, n)
    {
      DrainedUpTo(View(), size);
      body := TakeBuffered(size);
      if |body| < size {
        var more := TakeReceived(size - |body|);
        body := body + more;
      }
    }

    /** Sends a piece of the body to the reader. */
    method Reply(body: Bytes)
      modifies this`pendingRead, this`sent
      ensures pendingRead == Wait
      ensures sent == old(sent) + [Body(body, Available(View()) == [] && requestClosed)]
    {
      pendingRead := Wait;
      var readable := envoy.HasRequestBody();
      sent := sent + [Body(body, !readable && requestClosed)];
    }

    method AnswerRaw(size: nat)
      modifies this`pendingRead, this`sent, envoy
      ensures View() == RawAnswered(old(View()), size).0
      ensures sent == old(sent) + [RawAnswered(old(View()), size).1.value]
    {
      var body := DrainUpTo(size);
      Reply(body);
    }

    method CollectAll()
      modifies this`pendingRead, this`readBuffer, this`sent, envoy
      ensures View() == AllCollected(old(View())).0
      ensures sent == old(sent) + (if requestClosed then [AllCollected(old(View())).1.value] else [])
    {
      var read;
      readBuffer, read := ExtendFromBuffers(envoy.buffered, readBuffer);
      if read > 0 {
        envoy.DrainBuffered(read);
      }
      readBuffer, read := ExtendFromBuffers(envoy.received, readBuffer);
      if read > 0 {
        envoy.DrainReceived(read);
      }
      assert readBuffer == old(readBuffer) + (old(Concat(envoy.buffered)) + old(Concat(envoy.received)));
      if requestClosed {
        pendingRead := Wait;
        sent := sent + [Body(readBuffer, true)];
        readBuffer := [];
      }
    }

    method AnswerLine(size: int)
      modifies this`pendingRead, this`readBuffer, this`sent, envoy
      ensures View() == LineAnswered(old(View()), size).0
      ensures var body := LineAnswered(old(View()), size).1;
              sent == old(sent) + (if body.Some? then [body.value] else [])
    {
      ghost var f := View();
      ScanBoth(f, size);
      var send, read := ReadUntilLineOrSize(envoy.buffered, size);
      envoy.DrainBuffered(read);
      if !send {
        assert f.buffered[..read] == f.buffered;
        send, read := ReadUntilLineOrSize(envoy.received, size);
        envoy.DrainReceived(read);
      }
      if send || requestClosed {
        Reply(readBuffer);
        readBuffer := [];
      }
    }
  }

  // ---------------------------------------------------------------- the Python side

  /** `lines` is what iterating over `rest` yields before the first empty line. */
  ghost predicate Iterates(rest: Bytes, lines: seq<Bytes>)
    decreases |lines|
  {
    if lines == [] then rest == []
    else
      && lines[0] != [] && IsLine(rest, -1, lines[0])
      && Iterates(rest[|lines[0]|..], lines[1..])
  }

  lemma {:induction false} IterationIsUnique(rest: Bytes, a: seq<Bytes>, b: seq<Bytes>)
    requires Iterates(rest, a) && Iterates(rest, b)
    ensures a == b
    decreases |a|
  {
    if a != [] && b != [] {
      LineIsUnique(rest, -1, a[0], b[0]);
      IterationIsUnique(rest[|a[0]|..], a[1..], b[1..]);
    }
  }

  /** Every line ends in a newline. */
  ghost predicate WholeLines(lines: seq<Bytes>) {
    forall k | 0 <= k < |lines| :: lines[k] != [] && lines[k][|lines[k]| - 1] == NEWLINE
  }

  lemma {:induction false} IteratesPush(rest: Bytes, lines: seq<Bytes>, line: Bytes)
    requires Concat(lines) <= rest && Iterates(Concat(lines), lines) && WholeLines(lines)
    requires rest == Concat(lines) + line && line != [] && IsLine(line, -1, line)
    ensures Iterates(rest, lines + [line])
    decreases |lines|
  {
    if lines == [] {
      assert [line][1..] == [] && rest == line;
      assert rest[|line|..] == [];
    } else {
      assert (lines + [line])[1..] == lines[1..] + [line];
      assert rest[|lines[0]|..] == Concat(lines[1..]) + line;
      assert Concat(lines)[|lines[0]|..] == Concat(lines[1..]);
      IteratesPush(rest[|lines[0]|..], lines[1..], line);
    }
  }

  /** `lines` are the lines of the first `start` bytes, which end in a newline if any. */
  ghost predicate SplitUpTo(body: Bytes, start: nat, lines: seq<Bytes>) {
    start <= |body| && Concat(lines) == body[..start] && Iterates(body[..start], lines) && WholeLines(lines)
  }

  lemma NextLine(body: Bytes, lines: seq<Bytes>, start: nat, end: nat)
    requires SplitUpTo(body, start, lines) && start < end <= |body|
    requires NEWLINE !in body[start..end - 1]
    requires body[end - 1] == NEWLINE || end == |body|
    ensures Iterates(body[..end], lines + [body[start..end]])
    ensures body[end - 1] == NEWLINE ==> SplitUpTo(body, end, lines + [body[start..end]])
  {
    var line := body[start..end];
    SliceGrows(body, start, end);
    SliceIsLine(body, start, end);
    IteratesPush(body[..end], lines, line);
    if body[end - 1] == NEWLINE {
      ConcatPush(lines, line);
      WholeLinesPush(lines, line);
    }
  }

  lemma WholeLinesPush(lines: seq<Bytes>, line: Bytes)
    requires WholeLines(lines) && line != [] && line[|line| - 1] == NEWLINE
    ensures WholeLines(lines + [line])
  {
  }

  lemma SliceGrows(body: Bytes, start: nat, end: nat)
    requires start <= end <= |body|
    ensures body[..end] == body[..start] + body[start..end]
  {
  }

  lemma SliceIsLine(body: Bytes, start: nat, end: nat)
    requires start < end <= |body| && NEWLINE !in body[start..end - 1]
    ensures IsLine(body[start..end], -1, body[start..end])
  {
    var line := body[start..end];
    assert forall j | 0 <= j < |line| - 1 :: line[j] == body[start..end - 1][j];
  }

  lemma NoNewline(body: Bytes, start: nat, k: nat)
    requires start <= k < |body| && NEWLINE !in body[start..k] && body[k] != NEWLINE
    ensures NEWLINE !in body[start..k + 1]
  {
    assert body[start..k + 1] == body[start..k] + [body[k]];
  }

  /** The splitting in `readlines`: after each newline, with no empty line at the end. */
  method SplitLines(body: Bytes) returns (lines: seq<Bytes>)
    ensures Iterates(body, lines)
  {
    lines := [];
    var start := 0;
    for k := 0 to |body|
      invariant start <= k && SplitUpTo(body, start, lines)
      invariant NEWLINE !in body[start..k]
    {
      if body[k] == NEWLINE {
        NextLine(body, lines, start, k + 1);
        lines := lines + [body[start..k + 1]];
        start := k + 1;
      } else {
        NoNewline(body, start, k);
      }
    }
    assert body[..|body|] == body;
    if start < |body| {
      assert body[start..] == body[start..|body| - 1] + [body[|body| - 1]];
      NextLine(body, lines, start, |body|);
      lines := lines + [body[start..]];
    }
  }

  class RequestInput {
    var closed: bool
    const bridge: EventBridge<Read>

    ghost predicate Valid()
      reads this, bridge
    {
      bridge.Valid()
    }

    constructor (bridge: EventBridge<Read>, closed: bool)
      requires bridge.Valid()
      ensures Valid() && this.bridge == bridge && this.closed == closed
    {
      this.bridge, this.closed := bridge, closed;
    }

    /** `do_read`; `reply` is what the blocking receive returns. */
    method DoRead(request: Read, reply: Body) returns (result: Bytes, commit: bool)
      requires Valid()
      modifies this`closed, bridge
      ensures Valid()
      ensures old(closed) ==> result == [] && !commit && closed && bridge.View() == old(bridge.View())
      ensures !old(closed) ==> result == reply.body && closed == reply.closed
      ensures !old(closed) ==> bridge.View() == Sent(old(bridge.View()), request)
      ensures !old(closed) ==> commit == old(bridge.View()).Open?
    {
      if closed {
        return [], false;
      }
      var sent := bridge.Send(request);
      commit := sent.Accepted?;
      if reply.closed {
        closed := true;
      }
      result := reply.body;
    }

    method Readlines(reply: Body) returns (lines: seq<Bytes>)
      requires Valid()
      modifies this`closed, bridge
      ensures Valid()
      ensures Iterates(if old(closed) then [] else reply.body, lines)
    {
      var body, _ := DoRead(Raw(-1), reply);
      lines := SplitLines(body);
    }
  }

  // ---------------------------------------------------------------- every run

  datatype Python = Ready | Blocked(request: Read)

  /** `envoy` is Envoy's buffer between callbacks, `channel` the replies not received yet,
      `arrived` every byte of the body so far, and `log` the reads that have returned. */
  datatype State = State(
    pending: Read, readBuffer: Bytes, requestClosed: bool, envoy: Bytes,
    bridge: Channel<Read>, owed: nat, commits: nat, channel: seq<Body>,
    python: Python, inputClosed: bool,
    arrived: Bytes, log: seq<Answer>)

  /** `endOfStream` tells whether the request headers ended the request. */
  function Start(endOfStream: bool): State {
    State(Wait, [], endOfStream, [], Open([]), 0, 0, [], Ready, endOfStream, [], [])
  }

  datatype Action =
    | Deliver(data: Bytes, end: bool)  // a body callback; trailers end the body with no data
    | Call(request: Read) | Commit | Scheduled | Receive
    | Complete                         // the stream is over and the bridge is closed

  predicate Enabled(s: State, a: Action) {
    match a
    case Deliver(_, _) => !s.requestClosed
    case Call(request) => s.python.Ready? && !request.Wait?
    case Commit => s.owed > 0
    case Scheduled => s.commits > 0
    case Receive => s.python.Blocked? && s.channel != []
    case Complete => true
  }

  /** The filter as a callback finds it, after it took the waiting requests. */
  function FilterIn(s: State, received: Bytes): Filter {
    var waiting := Queue(s.bridge);
    Filter(if waiting == [] then s.pending else waiting[|waiting| - 1],
           s.readBuffer, s.requestClosed, s.envoy, received)
  }

  function Callback(s: State, received: Bytes): State {
    var (f, body) := Processed(FilterIn(s, received));
    s.(pending := f.pending, readBuffer := f.readBuffer, envoy := Available(f),
       bridge := EventBridges.Drained(s.bridge),
       channel := if body.Some? then s.channel + [body.value] else s.channel)
  }

  function Apply(s: State, a: Action): State
    requires Enabled(s, a)
  {
    match a
    case Deliver(data, end) =>
      Callback(s.(requestClosed := end, arrived := s.arrived + data), data)
    case Scheduled => Callback(s.(commits := s.commits - 1), [])
    case Call(request) =>
      if request.size == 0 || s.inputClosed then s.(log := s.log + [Answer(request, [])])
      else s.(python := Blocked(request), bridge := Sent(s.bridge, request),
              owed := if s.bridge.Open? then s.owed + 1 else s.owed)
    case Commit => s.(owed := s.owed - 1, commits := s.commits + 1)
    case Receive =>
      s.(python := Ready, channel := s.channel[1..],
         inputClosed := s.inputClosed || s.channel[0].closed,
         log := s.log + [Answer(s.python.request, s.channel[0].body)])
    case Complete => s.(bridge := Shut)
  }

  predicate CanRun(s: State, actions: seq<Action>)
    decreases |actions|
  {
    actions == [] || (Enabled(s, actions[0]) && CanRun(Apply(s, actions[0]), actions[1..]))
  }

  function Run(s: State, actions: seq<Action>): State
    requires CanRun(s, actions)
    decreases |actions|
  {
    if actions == [] then s else Run(Apply(s, actions[0]), actions[1..])
  }

  /** `body` may turn out to be the whole body. */
  predicate MayBecome(s: State, body: Bytes) {
    s.arrived <= body && (s.requestClosed ==> body == s.arrived)
  }

  function Undelivered(s: State): Bytes {
    (if s.channel == [] then [] else s.channel[0].body) + s.readBuffer + s.envoy
  }

  predicate NoLineEnd(line: Bytes, size: int) {
    NEWLINE !in line && (size > 0 ==> |line| < size)
  }

  /** What the carry-over buffer may hold while `request` is pending. */
  predicate Carried(request: Read, readBuffer: Bytes) {
    match request
    case Wait => readBuffer == []
    case Raw(size) => size < 0 || (size > 0 && readBuffer == [])
    case Line(size) => size != 0 && NoLineEnd(readBuffer, size)
  }

  ghost predicate ReplyIs(s: State, request: Read) {
    && |s.channel| == 1
    && (forall body :: MayBecome(s, body) && Consumed(s.log) <= body ==>
          Answers(request, body[|Consumed(s.log)|..], s.channel[0].body))
    && (s.channel[0].closed ==> s.requestClosed && s.envoy == [])
  }

  /** A blocked read is in exactly one place: on the bridge, pending in the filter, answered on
      the channel, or lost because the bridge was closed. */
  ghost predicate Located(s: State) {
    if s.python.Ready? then Queue(s.bridge) == [] && s.pending.Wait? && s.channel == []
    else
      var request := s.python.request;
      && !request.Wait? && request.size != 0 && !s.inputClosed
      && (|| (Queue(s.bridge) == [request] && s.pending.Wait? && s.channel == [])
          || (Queue(s.bridge) == [] && s.pending == request && s.channel == [])
          || (Queue(s.bridge) == [] && s.pending.Wait? && ReplyIs(s, request))
          || (s.bridge.Shut? && s.pending.Wait? && s.channel == []))
  }

  ghost predicate Inv(s: State) {
    && Consumed(s.log) + Undelivered(s) == s.arrived
    && (forall body :: MayBecome(s, body) ==> IdealLog(s.log, body))
    && Located(s)
    && Carried(s.pending, s.readBuffer)
    && (!s.pending.Wait? ==> s.envoy == [] && !s.requestClosed)
    && (s.inputClosed ==> s.requestClosed && Consumed(s.log) == s.arrived)
    && (Queue(s.bridge) != [] ==> s.owed > 0 || s.commits > 0)
  }

  lemma {:induction false} ScanEndsLine(line: Bytes, available: Bytes, size: int)
    requires NoLineEnd(line, size) && size != 0
    ensures var (stop, n) := Scan(line, available, size);
            && n <= |available|
            && (var result := line + available[..n];
                if stop then
                  && result != [] && NEWLINE !in result[..|result| - 1]
                  && (size > 0 ==> |result| <= size)
                  && (result[|result| - 1] == NEWLINE || |result| == size)
                else n == |available| && NoLineEnd(result, size))
    decreases available
  {
    ScanBound(line, available, size);
    if available == [] {
      assert line + available[..0] == line;
    } else {
      var b := available[0];
      var next := line + [b];
      var (stop, n) := Scan(line, available, size);
      if b == NEWLINE || (size > 0 && |line| + 1 >= size) {
        assert line + available[..1] == next && next[..|next| - 1] == line;
      } else {
        ScanEndsLine(next, available[1..], size);
        assert line + available[..n] == next + available[1..][..n - 1];
      }
    }
  }

  /** From `f` with a request pending to `f'`: a reply answers the request, holds back no byte it
      could give, and says whether it is the last; what is kept loses and reorders nothing. */
  ghost predicate StepAnswers(f: Filter, f': Filter, body: Option<Body>, whole: Bytes) {
    && f'.requestClosed == f.requestClosed
    && (if body.Some? then
          && f'.pending.Wait? && f'.readBuffer == []
          && Answers(f.pending, whole, body.value.body)
          && (body.value.closed <==> f.requestClosed && Available(f') == [])
          && (f.pending.Raw? && f.pending.size > 0 ==>
                |body.value.body| == f.pending.size || Available(f') == [])
          && body.value.body + Available(f') == f.readBuffer + Available(f)
        else
          && f'.pending == f.pending && Carried(f'.pending, f'.readBuffer)
          && Available(f') == [] && !f.requestClosed
          && f'.readBuffer == f.readBuffer + Available(f))
  }

  /** `whole` is what may be left of the body for the pending request. */
  ghost predicate MayFollow(f: Filter, whole: Bytes) {
    && f.readBuffer + Available(f) <= whole
    && (f.requestClosed ==> whole == f.readBuffer + Available(f))
  }

  lemma DrainedAvailable(f: Filter, n: nat)
    requires n <= |Available(f)|
    ensures Available(DrainedBy(f, n)) == Available(f)[n..]
  {
  }

  lemma RawAnswers(f: Filter, size: nat, whole: Bytes)
    requires f.pending == Raw(size) && size > 0 && f.readBuffer == [] && MayFollow(f, whole)
    requires Available(f) != [] || f.requestClosed
    ensures StepAnswers(f, RawAnswered(f, size).0, RawAnswered(f, size).1, whole)
  {
    var n := Min(size, |Available(f)|);
    DrainedAvailable(f, n);
    assert Available(f) == Available(f)[..n] + Available(f)[n..];
    assert Available(f) <= whole;
  }

  lemma AllAnswers(f: Filter, whole: Bytes)
    requires f.pending.Raw? && f.pending.size < 0 && MayFollow(f, whole)
    ensures StepAnswers(f, AllCollected(f).0, AllCollected(f).1, whole)
  {
    DrainedAvailable(f, |Available(f)|);
  }

  lemma ScannedIsLine(whole: Bytes, size: int, line: Bytes)
    requires line <= whole && (size > 0 ==> |line| <= size)
    requires line != [] ==> NEWLINE !in line[..|line| - 1]
    requires line == whole || (line != [] && (line[|line| - 1] == NEWLINE || |line| == size))
    ensures IsLine(whole, size, line)
  {
    assert forall k | 0 <= k < |line| - 1 :: line[k] == line[..|line| - 1][k];
  }

  /** Every text starts with a line, and by `LineIsUnique` with no other. */
  lemma LineExists(rest: Bytes, size: int) returns (line: Bytes)
    ensures IsLine(rest, size, line)
  {
    var limit := if size == 0 then -1 else size;
    ScanEndsLine([], rest, limit);
    var (_, n) := Scan([], rest, limit);
    line := rest[..n];
    assert [] + line == line;
    ScannedIsLine(rest, size, line);
  }

  lemma LineAnswers(f: Filter, size: int, whole: Bytes)
    requires f.pending == Line(size) && Carried(f.pending, f.readBuffer) && MayFollow(f, whole)
    ensures StepAnswers(f, LineAnswered(f, size).0, LineAnswered(f, size).1, whole)
  {
    var available := Available(f);
    ScanEndsLine(f.readBuffer, available, size);
    var (stop, n) := Scan(f.readBuffer, available, size);
    var line := f.readBuffer + available[..n];
    DrainedAvailable(f, n);
    assert line + available[n..] == f.readBuffer + available;
    assert line <= whole;
    if stop {
      ScannedIsLine(whole, size, line);
    } else {
      assert available[n..] == [] && available[..n] == available;
      if f.requestClosed {
        assert line == whole;
        ScannedIsLine(whole, size, line);
      }
    }
  }

  /** One callback with a request pending, for every body that may follow. */
  lemma ProcessedAnswers(f: Filter, whole: Bytes)
    requires !f.pending.Wait? && Carried(f.pending, f.readBuffer) && MayFollow(f, whole)
    ensures StepAnswers(f, Processed(f).0, Processed(f).1, whole)
  {
    if Available(f) != [] || f.requestClosed {
      match f.pending
      case Raw(size) =>
        if size > 0 {
          RawAnswers(f, size, whole);
        } else {
          AllAnswers(f, whole);
        }
      case Line(size) => LineAnswers(f, size, whole);
    } else {
      assert f.readBuffer + [] == f.readBuffer;
    }
  }

  /** The state a callback starts from: `received` is delivered with it. */
  ghost predicate CallbackReady(s: State, received: Bytes) {
    && Consumed(s.log) + Undelivered(s) + received == s.arrived
    && (forall body :: MayBecome(s, body) ==> IdealLog(s.log, body))
    && Located(s)
    && Carried(s.pending, s.readBuffer)
    && (s.inputClosed ==> s.requestClosed && received == [] && Consumed(s.log) == s.arrived)
    && (s.requestClosed && s.channel != [] ==> received == [] || !s.channel[0].closed)
  }

  lemma Remainder(done: Bytes, rest: Bytes, body: Bytes)
    requires done + rest <= body
    ensures done <= body && rest <= body[|done|..]
    ensures body == done + rest ==> body[|done|..] == rest
  {
    assert body[..|done|] == (done + rest)[..|done|] == done;
    assert body[|done|..][..|rest|] == (done + rest)[|done|..] == rest;
  }

  /** With no reply on its way, what arrived is what was read, carried over and readable. */
  lemma ArrivedParts(s: State, received: Bytes)
    requires CallbackReady(s, received) && s.channel == []
    ensures var f := FilterIn(s, received);
            s.arrived == Consumed(s.log) + (f.readBuffer + Available(f))
  {
    var done := Consumed(s.log);
    assert [] + s.readBuffer + s.envoy == s.readBuffer + s.envoy;
    assert done + (s.readBuffer + s.envoy) + received == done + (s.readBuffer + (s.envoy + received));
  }

  /** What `body` holds after the reads so far may follow for the pending request. */
  lemma RestMayFollow(s: State, received: Bytes, body: Bytes)
    requires CallbackReady(s, received) && s.channel == [] && MayBecome(s, body)
    ensures Consumed(s.log) <= body
    ensures MayFollow(FilterIn(s, received), body[|Consumed(s.log)|..])
  {
    var f := FilterIn(s, received);
    var done, rest := Consumed(s.log), f.readBuffer + Available(f);
    ArrivedParts(s, received);
    Remainder(done, rest, body);
  }

  lemma CallbackWithoutRequest(s: State, received: Bytes)
    requires CallbackReady(s, received) && FilterIn(s, received).pending.Wait?
    ensures Inv(Callback(s, received))
  {
    var s' := Callback(s, received);
    assert Consumed(s.log) + Undelivered(s') == s.arrived;
    assert s'.log == s.log && forall body :: MayBecome(s', body) ==> MayBecome(s, body);
  }

  /** A callback with a request pending, seen from one body this may become. */
  lemma CallbackAnswers(s: State, received: Bytes, body: Bytes)
    requires CallbackReady(s, received) && !FilterIn(s, received).pending.Wait?
    requires MayBecome(s, body)
    ensures s.python.Blocked? && FilterIn(s, received).pending == s.python.request && s.channel == []
    ensures Consumed(s.log) <= body
    ensures var f := FilterIn(s, received);
            StepAnswers(f, Processed(f).0, Processed(f).1, body[|Consumed(s.log)|..])
  {
    RestMayFollow(s, received, body);
    ProcessedAnswers(FilterIn(s, received), body[|Consumed(s.log)|..]);
  }

  /** In every run, a callback that answers a read gives it as much as it asks for and is there, and
      tells it that the body is over exactly if it is. */
  lemma RepliesAreFull(endOfStream: bool, actions: seq<Action>, a: Action)
    requires CanRun(Start(endOfStream), actions) && Enabled(Run(Start(endOfStream), actions), a)
    requires a.Scheduled? || a.Deliver?
    requires var s := Run(Start(endOfStream), actions); s.channel == [] && Apply(s, a).channel != []
    ensures var s := Run(Start(endOfStream), actions);
            var s' := Apply(s, a);
            && s.python.Blocked? && |s'.channel| == 1
            && (s'.channel[0].closed <==> s'.requestClosed && s'.envoy == [])
            && (s.python.request.Raw? && s.python.request.size > 0 ==>
                  |s'.channel[0].body| == s.python.request.size || s'.envoy == [])
  {
    StartInv(endOfStream);
    RunKeepsInv(Start(endOfStream), actions);
    var s := Run(Start(endOfStream), actions);
    if a.Deliver? {
      ReplyIsFull(s.(requestClosed := a.end, arrived := s.arrived + a.data), a.data);
    } else {
      ReplyIsFull(s.(commits := s.commits - 1), []);
    }
  }

  lemma ReplyIsFull(s: State, received: Bytes)
    requires CallbackReady(s, received) && s.channel == [] && Callback(s, received).channel != []
    ensures var s' := Callback(s, received);
            && s.python.Blocked? && |s'.channel| == 1
            && (s'.channel[0].closed <==> s'.requestClosed && s'.envoy == [])
            && (s.python.request.Raw? && s.python.request.size > 0 ==>
                  |s'.channel[0].body| == s.python.request.size || s'.envoy == [])
  {
    if !FilterIn(s, received).pending.Wait? {
      CallbackAnswers(s, received, s.arrived);
    }
  }

  lemma CallbackKeepsBytes(s: State, received: Bytes)
    requires CallbackReady(s, received) && !FilterIn(s, received).pending.Wait?
    ensures Consumed(s.log) + Undelivered(Callback(s, received)) == s.arrived
  {
    CallbackAnswers(s, received, s.arrived);
    ArrivedParts(s, received);
    var f := FilterIn(s, received);
    var (f', body) := Processed(f);
    KeptBytes(f, f', body, s.arrived[|Consumed(s.log)|..]);
    var channel := if body.Some? then [body.value] else [];
    assert s.channel + channel == channel;
  }

  lemma KeptBytes(f: Filter, f': Filter, body: Option<Body>, whole: Bytes)
    requires StepAnswers(f, f', body, whole)
    ensures (if body.Some? then body.value.body else []) + f'.readBuffer + Available(f')
            == f.readBuffer + Available(f)
  {
    if body.Some? {
      assert body.value.body + [] == body.value.body;
    } else {
      assert [] + f'.readBuffer + [] == f'.readBuffer;
    }
  }

  lemma CallbackReplies(s: State, received: Bytes)
    requires CallbackReady(s, received) && !FilterIn(s, received).pending.Wait?
    requires Processed(FilterIn(s, received)).1.Some?
    ensures ReplyIs(Callback(s, received), FilterIn(s, received).pending)
  {
    var s' := Callback(s, received);
    CallbackAnswers(s, received, s.arrived);
    forall body | MayBecome(s', body) && Consumed(s'.log) <= body
      ensures Answers(FilterIn(s, received).pending, body[|Consumed(s'.log)|..], s'.channel[0].body)
    {
      CallbackAnswers(s, received, body);
    }
  }

  lemma CallbackWithRequest(s: State, received: Bytes)
    requires CallbackReady(s, received) && !FilterIn(s, received).pending.Wait?
    ensures Inv(Callback(s, received))
  {
    var s' := Callback(s, received);
    CallbackAnswers(s, received, s.arrived);
    CallbackKeepsBytes(s, received);
    forall body | MayBecome(s', body) ensures IdealLog(s'.log, body) {
      assert MayBecome(s, body);
    }
    if Processed(FilterIn(s, received)).1.Some? {
      CallbackReplies(s, received);
    }
  }

  lemma CallbackKeepsInv(s: State, received: Bytes)
    requires CallbackReady(s, received)
    ensures Inv(Callback(s, received))
  {
    if FilterIn(s, received).pending.Wait? {
      CallbackWithoutRequest(s, received);
    } else {
      CallbackWithRequest(s, received);
    }
  }

  lemma DeliverKeepsInv(s: State, data: Bytes, end: bool)
    requires Inv(s) && !s.requestClosed
    ensures Inv(Apply(s, Deliver(data, end)))
  {
    var s1 := s.(requestClosed := end, arrived := s.arrived + data);
    forall body | MayBecome(s1, body) ensures IdealLog(s1.log, body) {
      assert MayBecome(s, body);
    }
    if s.channel != [] && s.python.Blocked? {
      assert ReplyIs(s, s.python.request);
      forall body | MayBecome(s1, body) && Consumed(s1.log) <= body
        ensures Answers(s.python.request, body[|Consumed(s.log)|..], s.channel[0].body)
      {
        assert MayBecome(s, body);
      }
    }
    CallbackKeepsInv(s1, data);
  }

  lemma ReceiveKeepsInv(s: State)
    requires Inv(s) && Enabled(s, Receive)
    ensures Inv(Apply(s, Receive))
  {
    var s' := Apply(s, Receive);
    var answer := Answer(s.python.request, s.channel[0].body);
    assert s.pending.Wait? && s.readBuffer == [];
    assert s'.log[..|s'.log| - 1] == s.log;
    assert Consumed(s'.log) + Undelivered(s') == s.arrived;
    forall body | MayBecome(s', body) ensures IdealLog(s'.log, body) {
      assert MayBecome(s, body) && Consumed(s.log) <= s.arrived <= body;
      IdealLogPush(s.log, body, answer);
    }
  }

  lemma CallKeepsInv(s: State, request: Read)
    requires Inv(s) && Enabled(s, Call(request))
    ensures Inv(Apply(s, Call(request)))
  {
    var s' := Apply(s, Call(request));
    if request.size == 0 || s.inputClosed {
      assert s'.log[..|s'.log| - 1] == s.log;
      forall body | MayBecome(s', body) ensures IdealLog(s'.log, body) {
        assert MayBecome(s, body) && Consumed(s.log) <= s.arrived <= body;
        IdealLogPush(s.log, body, Answer(request, []));
      }
    } else {
      assert forall body :: MayBecome(s', body) ==> MayBecome(s, body);
    }
  }

  lemma SameReply(s: State, s': State)
    requires Inv(s) && s.python.Blocked? && s.channel != []
    requires s'.log == s.log && s'.channel == s.channel && s'.envoy == s.envoy
    requires s'.arrived == s.arrived && s'.requestClosed == s.requestClosed
    ensures ReplyIs(s', s.python.request)
  {
    assert ReplyIs(s, s.python.request);
    assert forall body :: MayBecome(s', body) ==> MayBecome(s, body);
  }

  lemma ScheduledKeepsInv(s: State)
    requires Inv(s) && Enabled(s, Scheduled)
    ensures Inv(Apply(s, Scheduled))
  {
    var s1 := s.(commits := s.commits - 1);
    assert forall body :: MayBecome(s1, body) ==> MayBecome(s, body);
    if s.python.Blocked? && s.channel != [] {
      SameReply(s, s1);
    }
    CallbackKeepsInv(s1, []);
  }

  lemma OtherKeepsInv(s: State, a: Action)
    requires Inv(s) && Enabled(s, a) && (a.Commit? || a.Complete?)
    ensures Inv(Apply(s, a))
  {
    var s' := Apply(s, a);
    assert forall body :: MayBecome(s', body) ==> MayBecome(s, body);
    if s.python.Blocked? && s.channel != [] {
      SameReply(s, s');
    }
  }

  lemma StepKeepsInv(s: State, a: Action)
    requires Inv(s) && Enabled(s, a)
    ensures Inv(Apply(s, a))
  {
    match a
    case Deliver(data, end) => DeliverKeepsInv(s, data, end);
    case Call(request) => CallKeepsInv(s, request);
    case Receive => ReceiveKeepsInv(s);
    case Scheduled => ScheduledKeepsInv(s);
    case Commit => OtherKeepsInv(s, a);
    case Complete => OtherKeepsInv(s, a);
  }

  lemma {:induction false} RunKeepsInv(s: State, actions: seq<Action>)
    requires Inv(s) && CanRun(s, actions)
    ensures Inv(Run(s, actions))
    decreases |actions|
  {
    if actions != [] {
      StepKeepsInv(s, actions[0]);
      RunKeepsInv(Apply(s, actions[0]), actions[1..]);
    }
  }

  lemma StartInv(endOfStream: bool)
    ensures Inv(Start(endOfStream))
  {
  }

  /** However Envoy cuts and times the body, and whatever is read in which order: the answers so
      far are those of the ideal reader over every body that may still result, so over the
      whole body once it is complete; every byte that arrived is in the answers, on its way
      to the reader, carried over, or still in Envoy, in order; and the input is closed only
      once everything was delivered. */
  lemma ReadsAreIdeal(endOfStream: bool, actions: seq<Action>)
    requires CanRun(Start(endOfStream), actions)
    ensures var s := Run(Start(endOfStream), actions);
            && (forall body :: MayBecome(s, body) ==> IdealLog(s.log, body))
            && (s.requestClosed ==> IdealLog(s.log, s.arrived))
            && Consumed(s.log) + Undelivered(s) == s.arrived
            && (s.inputClosed ==> s.requestClosed && Consumed(s.log) == s.arrived)
  {
    StartInv(endOfStream);
    RunKeepsInv(Start(endOfStream), actions);
    var s := Run(Start(endOfStream), actions);
    assert s.requestClosed ==> MayBecome(s, s.arrived);
  }

  /** A reader is never left waiting for something the filter already has: with no callback on
      its way and the stream alive, it waits only because more of the body must come. */
  lemma NoReadIsStuck(endOfStream: bool, actions: seq<Action>)
    requires CanRun(Start(endOfStream), actions)
    ensures var s := Run(Start(endOfStream), actions);
            s.python.Blocked? && s.channel == [] && s.bridge.Open? && s.owed == s.commits == 0 ==>
              && !s.requestClosed && s.envoy == []
              && s.pending == s.python.request && Carried(s.pending, s.readBuffer)
  {
    StartInv(endOfStream);
    RunKeepsInv(Start(endOfStream), actions);
  }

  function Results(log: seq<Answer>): seq<Bytes> {
    seq(|log|, k requires 0 <= k < |log| => log[k].result)
  }

  lemma ResultsFrom(log: seq<Answer>)
    requires log != []
    ensures Results(log)[0] == log[0].result && Results(log)[1..] == Results(log[1..])
  {
  }

  /** A read starts where the one before it stopped. */
  lemma ReadMovesOn(log: seq<Answer>, k: nat, body: Bytes)
    requires k < |log| && Consumed(log[..k]) <= body && Consumed(log[..k + 1]) <= body
    ensures |Consumed(log[..k])| + |log[k].result| <= |body|
    ensures body[|Consumed(log[..k])|..][|log[k].result|..] == body[|Consumed(log[..k + 1])|..]
  {
    assert log[..k + 1][..k] == log[..k];
  }

  /** Reading lines until one is empty iterates over what was left. */
  lemma {:induction false} IterationIterates(log: seq<Answer>, from: nat, body: Bytes)
    requires from < |log| && IdealLog(log, body)
    requires forall k | from <= k < |log| :: log[k].request == Line(-1)
    requires log[|log| - 1].result == []
    requires forall k | from <= k < |log| - 1 :: log[k].result != []
    ensures Consumed(log[..from]) <= body
    ensures Iterates(body[|Consumed(log[..from])|..], Results(log[from..|log| - 1]))
    decreases |log| - from
  {
    var rest := body[|Consumed(log[..from])|..];
    assert Answers(log[from].request, rest, log[from].result);
    if from == |log| - 1 {
      assert Results(log[from..|log| - 1]) == [];
    } else {
      IterationIterates(log, from + 1, body);
      ReadMovesOn(log, from, body);
      ResultsFrom(log[from..|log| - 1]);
      assert log[from..|log| - 1][1..] == log[from + 1..|log| - 1];
    }
  }

  /** Reading lines until one is empty gives exactly what `readlines` gives at the same point:
      it reads everything left and splits that into lines. */
  lemma IterationGivesReadlines(log: seq<Answer>, from: nat, body: Bytes, read: Bytes, lines: seq<Bytes>)
    requires from < |log| && IdealLog(log, body)
    requires forall k | from <= k < |log| :: log[k].request == Line(-1)
    requires log[|log| - 1].result == []
    requires forall k | from <= k < |log| - 1 :: log[k].result != []
    requires Consumed(log[..from]) <= body && Answers(Raw(-1), body[|Consumed(log[..from])|..], read)
    requires Iterates(read, lines)
    ensures Results(log[from..|log| - 1]) == lines
  {
    IterationIterates(log, from, body);
    IterationIsUnique(read, Results(log[from..|log| - 1]), lines);
  }
}
