/** The WebSocket read loop: bytes are pulled from Envoy a block at a time, decoded, and each
    data message answers one receive. */
module WebSocketReceives {
  import opened Basics
  import opened EventBridges
  import opened EnvoyStreams

  datatype Frame = Frame(code: nat, reason: Bytes)

  datatype ReceiveEvent = Connect | Received(body: Bytes) | Disconnect(frame: Frame)

  /** What a receive future is resolved with. */
  datatype Answer = Answer(future: nat, event: ReceiveEvent)

  function Disconnects(futures: seq<nat>, frame: Frame): seq<Answer> {
    seq(|futures|, i requires 0 <= i < |futures| => Answer(futures[i], Disconnect(frame)))
  }

  function MessageIn(a: Answer): seq<Bytes> {
    if a.event.Received? then [a.event.body] else []
  }

  /** The messages the application has received. */
  function MessagesIn(answers: seq<Answer>): seq<Bytes> {
    FlatMap(answers, MessageIn)
  }

  function FutureIn(a: Answer): seq<nat> {
    [a.future]
  }

  function FuturesIn(answers: seq<Answer>): seq<nat> {
    FlatMap(answers, FutureIn)
  }

  lemma {:induction false} FuturesOfDisconnects(futures: seq<nat>, frame: Frame)
    ensures FuturesIn(Disconnects(futures, frame)) == futures
    ensures MessagesIn(Disconnects(futures, frame)) == []
    decreases |futures|
  {
    FlatMapNone(Disconnects(futures, frame), MessageIn);
    if futures != [] {
      var init := futures[..|futures| - 1];
      FuturesOfDisconnects(init, frame);
      assert Disconnects(futures, frame)[..|init|] == Disconnects(init, frame);
    }
  }

  lemma DisconnectsAdd(answers: seq<Answer>, futures: seq<nat>, frame: Frame)
    ensures FuturesIn(answers + Disconnects(futures, frame)) == FuturesIn(answers) + futures
    ensures MessagesIn(answers + Disconnects(futures, frame)) == MessagesIn(answers)
  {
    FuturesOfDisconnects(futures, frame);
    FlatMapAppend(answers, Disconnects(futures, frame), MessageIn);
    FlatMapAppend(answers, Disconnects(futures, frame), FutureIn);
  }

  // ---------------------------------------------------------------- the decoder

  /** The next thing in the stream, with the number of bytes it takes. */
  datatype Unit =
    | NeedMore
    | Data(body: Bytes, size: nat)
    | Control(size: nat)
    | PeerClose(frame: Option<Frame>, size: nat)
    | Bad(code: nat, size: nat)

  /** Given the bytes decoded before, which determine its state, and those that follow. */
  type Decoder = (Bytes, Bytes) -> Unit

  /** What is recognised takes some bytes, and does not depend on those after it. */
  predicate Delimits(d: Decoder, done: Bytes, rest: Bytes, more: Bytes) {
    var u := d(done, rest);
    u.NeedMore? || (0 < u.size <= |rest| && d(done, rest[..u.size] + more) == u)
  }

  ghost predicate Sound(d: Decoder) {
    forall done, rest, more :: Delimits(d, done, rest, more)
  }

  /** The data messages in a stream, up to a close frame or an error. */
  ghost function Messages(d: Decoder, done: Bytes, rest: Bytes): seq<Bytes>
    requires Sound(d)
    decreases |rest|
  {
    assert Delimits(d, done, rest, []);
    var u := d(done, rest);
    if u.Data? then [u.body] + Messages(d, done + rest[..u.size], rest[u.size..])
    else if u.Control? then Messages(d, done + rest[..u.size], rest[u.size..])
    else []
  }

  function MessageOf(u: Unit): seq<Bytes> {
    if u.Data? then [u.body] else []
  }

  /** The code of a close without a frame. */
  const NO_STATUS: nat := 1005

  /** What ends the connection's messages, as the receives that wait are told. */
  function CloseFrameOf(u: Unit): Frame
    requires u.PeerClose? || u.Bad?
  {
    if u.Bad? then Frame(u.code, [])
    else if u.frame.Some? then u.frame.value
    else Frame(NO_STATUS, [])
  }

  function SizeOf(u: Unit): nat {
    if u.NeedMore? then 0 else u.size
  }

  /** The messages that follow a unit. */
  ghost function After(d: Decoder, u: Unit, done: Bytes, more: Bytes): seq<Bytes>
    requires Sound(d)
  {
    if u.Data? || u.Control? then Messages(d, done, more) else []
  }

  /** A unit is the first thing in the stream whatever comes after it. */
  lemma FirstUnit(d: Decoder, done: Bytes, rest: Bytes, more: Bytes)
    requires Sound(d) && !d(done, rest).NeedMore?
    ensures var u := d(done, rest);
            && u.size <= |rest|
            && Messages(d, done, rest[..u.size] + more) ==
               MessageOf(u) + After(d, u, done + rest[..u.size], more)
  {
    var u := d(done, rest);
    assert Delimits(d, done, rest, more);
    var all := rest[..u.size] + more;
    assert all[..u.size] == rest[..u.size] && all[u.size..] == more;
  }

  /** Once all of a unit's bytes are there, it is recognised: one still incomplete after `p`
      bytes takes more than `p`. */
  lemma SeenInPrefix(d: Decoder, done: Bytes, rest: Bytes, p: nat)
    requires Sound(d) && p <= |rest| && !d(done, rest).NeedMore?
    ensures d(done, rest).size <= p ==> d(done, rest[..p]) == d(done, rest)
  {
    var size := d(done, rest).size;
    if size <= p {
      assert Delimits(d, done, rest, rest[size..p]);
      assert rest[..size] + rest[size..p] == rest[..p];
    }
  }

  /** What was decoded so far held `messages`, whatever comes next. */
  ghost predicate Exact(d: Decoder, done: Bytes, messages: seq<Bytes>)
    requires Sound(d)
  {
    forall more :: ExactWith(d, done, messages, more)
  }

  ghost predicate ExactWith(d: Decoder, done: Bytes, messages: seq<Bytes>, more: Bytes)
    requires Sound(d)
  {
    Messages(d, [], done + more) == messages + Messages(d, done, more)
  }

  lemma ExactFromStart(d: Decoder)
    requires Sound(d)
    ensures Exact(d, [], [])
  {
    forall more
      ensures ExactWith(d, [], [], more)
    {
      assert [] + more == more;
    }
  }

  lemma ExactAt(d: Decoder, done: Bytes, messages: seq<Bytes>, more: Bytes)
    requires Sound(d) && Exact(d, done, messages)
    ensures Messages(d, [], done + more) == messages + Messages(d, done, more)
  {
    assert ExactWith(d, done, messages, more);
  }

  lemma ExactUnit(d: Decoder, done: Bytes, messages: seq<Bytes>, rest: Bytes, more: Bytes)
    requires Sound(d) && Exact(d, done, messages) && !d(done, rest).NeedMore?
    ensures var u := d(done, rest);
            && u.size <= |rest|
            && Messages(d, [], done + rest[..u.size] + more) ==
               messages + MessageOf(u) + After(d, u, done + rest[..u.size], more)
  {
    FirstUnit(d, done, rest, more);
    var u := d(done, rest);
    var after := After(d, u, done + rest[..u.size], more);
    ExactAt(d, done, messages, rest[..u.size] + more);
    Assoc(done, rest[..u.size], more);
    Assoc(messages, MessageOf(u), after);
  }

  /** A data message or a control frame keeps it exact. */
  lemma ExactNext(d: Decoder, done: Bytes, messages: seq<Bytes>, rest: Bytes)
    requires Sound(d) && Exact(d, done, messages) && (d(done, rest).Data? || d(done, rest).Control?)
    ensures var u := d(done, rest);
            u.size <= |rest| && Exact(d, done + rest[..u.size], messages + MessageOf(u))
  {
    var u := d(done, rest);
    assert Delimits(d, done, rest, []);
    forall more
      ensures ExactWith(d, done + rest[..u.size], messages + MessageOf(u), more)
    {
      ExactUnit(d, done, messages, rest, more);
    }
  }

  /** What was decoded held `messages`, and nothing that comes next will. */
  ghost predicate Complete(d: Decoder, done: Bytes, messages: seq<Bytes>)
    requires Sound(d)
  {
    forall more :: CompleteWith(d, done, messages, more)
  }

  ghost predicate CompleteWith(d: Decoder, done: Bytes, messages: seq<Bytes>, more: Bytes)
    requires Sound(d)
  {
    Messages(d, [], done + more) == messages
  }

  /** A close frame or an error ends the messages. */
  lemma CompleteNext(d: Decoder, done: Bytes, messages: seq<Bytes>, rest: Bytes)
    requires Sound(d) && Exact(d, done, messages) && (d(done, rest).PeerClose? || d(done, rest).Bad?)
    ensures var u := d(done, rest);
            u.size <= |rest| && Complete(d, done + rest[..u.size], messages)
  {
    var u := d(done, rest);
    assert Delimits(d, done, rest, []);
    forall more
      ensures CompleteWith(d, done + rest[..u.size], messages, more)
    {
      ExactUnit(d, done, messages, rest, more);
      assert messages + [] + [] == messages;
    }
  }

  lemma ExactEnd(d: Decoder, done: Bytes, messages: seq<Bytes>, rest: Bytes)
    requires Sound(d) && Exact(d, done, messages) && (d(done, rest).PeerClose? || d(done, rest).Bad?)
    ensures Messages(d, [], done + rest) == messages
  {
    var size := d(done, rest).size;
    CompleteNext(d, done, messages, rest);
    assert CompleteWith(d, done + rest[..size], messages, rest[size..]);
    Assoc(done, rest[..size], rest[size..]);
    SplitsAt(rest, size);
  }

  /** More bytes do not change a unit. */
  lemma SeenBefore(d: Decoder, done: Bytes, rest: Bytes, more: Bytes)
    requires Sound(d) && !d(done, rest).NeedMore?
    ensures 0 < d(done, rest).size <= |rest| && d(done, rest + more) == d(done, rest)
  {
    assert Delimits(d, done, rest, more);
    var size := d(done, rest).size;
    assert Delimits(d, done, rest, rest[size..] + more);
    assert rest[..size] + (rest[size..] + more) == rest + more;
  }

  // ---------------------------------------------------------------- the loop

  /** Where the filter is in `read_web_socket`: not in it, decoding with a receive waiting, or
      about to close the bridges. */
  datatype Reading = Idle | Decoding | Closing

  /** The bytes that arrived and are no part of the handshake: the first `taken` have left Envoy, the first
      `done` are decoded. `ended` says that the decoder met a close frame or an error. */
  datatype Input = Input(arrived: Bytes, taken: nat, done: nat, ended: bool)

  function Decoded(i: Input): Bytes {
    if i.done <= |i.arrived| then i.arrived[..i.done] else i.arrived
  }

  /** What the decoder has in front of it. */
  function Ahead(i: Input): Bytes {
    if i.done <= i.taken <= |i.arrived| then i.arrived[i.done..i.taken] else []
  }

  function Verdict(d: Decoder, i: Input): Unit {
    d(Decoded(i), Ahead(i))
  }

  function Advanced(i: Input, u: Unit): Input {
    i.(done := i.done + SizeOf(u), ended := u.PeerClose? || u.Bad?)
  }

  /** `read_block`. */
  function Pulled(i: Input): Input {
    if i.taken > |i.arrived| then i
    else i.(taken := i.taken + BlockLength(i.arrived[i.taken..]))
  }

  /** What the read loop works on: the bytes, the receives that wait, what receives were given,
      and the close frame once one is known. */
  datatype Loop = Loop(
    reading: Reading, input: Input, recv: Channel<nat>, answers: seq<Answer>, closeFrame: Option<Frame>)

  /** A message is decoded and the first waiting receive takes it. */
  function Given(l: Loop, body: Bytes): Loop {
    if Queue(l.recv) == [] then l.(reading := Idle)
    else
      l.(recv := FirstTaken(l.recv), answers := l.answers + [Answer(Queue(l.recv)[0], Received(body))],
         reading := if |Queue(l.recv)| == 1 then Idle else Decoding)
  }

  /** Every receive that waits is told the close frame. */
  function Told(l: Loop, frame: Frame): Loop {
    l.(closeFrame := Some(frame), recv := Drained(l.recv), reading := Closing,
       answers := l.answers + Disconnects(Queue(l.recv), frame))
  }

  /** One round, by what the decoder finds. */
  function AfterRound(l: Loop, u: Unit): Loop {
    var l1 := l.(input := Advanced(l.input, u));
    match u
    case Data(body, _) => Given(l1, body)
    case Control(_) => l1
    case NeedMore =>
      if l.input.taken < |l.input.arrived| then l.(input := Pulled(l.input)) else l.(reading := Idle)
    case _ => Told(l1, CloseFrameOf(u))
  }

  /** Receives made meanwhile join those that wait. */
  function Joined(l: Loop, futures: seq<nat>): Loop {
    l.(recv := if l.recv.Open? then Channel.Open(l.recv.queue + futures) else Shut)
  }

  /** `n` rounds, each with the receives made while it runs. */
  function AfterRounds(d: Decoder, l: Loop, arriving: nat -> seq<nat>, n: nat): Loop {
    if n == 0 then l else NextRound(d, AfterRounds(d, l, arriving, n - 1), arriving(n - 1))
  }

  function NextRound(d: Decoder, l: Loop, futures: seq<nat>): Loop {
    var before := Joined(l, futures);
    AfterRound(before, Verdict(d, before.input))
  }

  /** A round that delivers: another follows while receives wait. */
  lemma DeliveredRound(l: Loop, u: Unit)
    requires l.reading.Decoding? && Queue(l.recv) != [] && (u.Data? || u.Control?)
    ensures var recv := if u.Data? then FirstTaken(l.recv) else l.recv;
            var answers := if u.Data? then l.answers + [Answer(Queue(l.recv)[0], Received(u.body))] else l.answers;
            var reading := if Queue(recv) != [] then Decoding else Idle;
            AfterRound(l, u) == Loop(reading, Advanced(l.input, u), recv, answers, l.closeFrame)
  {
  }

  /** The parts of the input are where the lengths say. */
  lemma InputParts(i: Input, done: Bytes, taken: Bytes, envoy: Bytes)
    requires i == Input(done + (taken + envoy), |done| + |taken|, |done|, false)
    ensures Decoded(i) == done && Ahead(i) == taken && i.arrived[i.taken..] == envoy
  {
  }

  // ---------------------------------------------------------------- the reader

  /** Receives, with those that other threads make while the first `n` turns of the loop run. */
  function WithArrivals(futures: seq<nat>, arriving: nat -> seq<nat>, n: nat): seq<nat> {
    if n == 0 then futures else WithArrivals(futures, arriving, n - 1) + arriving(n - 1)
  }

  /** Taking `n` bytes off the front of `pending`. */
  lemma UnitMoves(done: Bytes, pending: Bytes, buffer: Bytes, envoy: Bytes, n: nat)
    requires n <= |pending|
    ensures pending[..n] == (pending + buffer)[..n] && pending[n..] + buffer == (pending + buffer)[n..]
    ensures done + pending[..n] + (pending[n..] + buffer + envoy) == done + (pending + buffer + envoy)
  {
  }

  /** Moving `n` bytes from one place to another behind `pending`. */
  lemma MovedKeeps(pending: Bytes, buffer: Bytes, n: nat)
    requires n <= |buffer|
    ensures pending + buffer[..n] + buffer[n..] == pending + [] + buffer
    ensures pending + buffer[..n] == (pending + [] + buffer)[..|pending + []| + n]
  {
  }

  /** How many bytes the decoder asks the stream for at a time. */
  const READ_CHUNK: nat := 4096

  /** What there is to account for: the stream, the receives made in order, those dropped, and the
      messages received. */
  datatype Books = Books(whole: Bytes, futures: seq<nat>, gone: seq<nat>, messages: seq<Bytes>)

  /** The part of the filter that reads. `E` are the events of the send bridge. */
  class Reader<E> {
    const decoder: Decoder
    const stream: EnvoyStream
    const connection: Connection
    const recv: EventBridge<nat>
    const send: EventBridge<E>
    var done: Bytes      // decoded so far
    var pending: Bytes   // read by the decoder and not decoded yet
    var closeFrame: Option<Frame>
    var peerClosed: bool // the decoder has seen the client's close frame
    var ended: bool      // Envoy was asked to close the connection
    var answers: seq<Answer>
    var dropped: seq<nat>
    var unsent: seq<E>   // send events dropped by the close

    /** Everything received and not decoded yet, wherever it is. */
    ghost function Rest(): Bytes
      reads this, stream, connection
    {
      Taken() + connection.Buffer()
    }

    /** The part of it that was taken out of Envoy. */
    ghost function Taken(): Bytes
      reads this, stream
    {
      pending + stream.readBuffer
    }

    /** Everything received, decoded or not. */
    ghost function Whole(): Bytes
      reads this, stream, connection
    {
      done + Rest()
    }

    /** What the loop works on, while no close frame is known. */
    ghost function View(reading: Reading): Loop
      reads this, stream, connection, recv
    {
      Loop(reading, Input(Whole(), |done| + |Taken()|, |done|, false), recv.View(), answers, closeFrame)
    }

    ghost predicate Usable()
      reads this, stream, recv, send
    {
      Sound(decoder) && recv.Valid() && send.Valid() && recv as object != send && !stream.closed
    }

    ghost predicate Valid()
      reads this, stream, recv, send
    {
      && Usable()
      && (closeFrame.None? ==> recv.View().Open? && Exact(decoder, done, MessagesIn(answers)))
    }

    constructor (decoder: Decoder, stream: EnvoyStream, connection: Connection,
                 recv: EventBridge<nat>, send: EventBridge<E>)
      requires Sound(decoder) && recv.Valid() && recv.View().Open? && send.Valid() && recv as object != send
      requires !stream.closed
      ensures Valid() && this.stream == stream && this.connection == connection
      ensures this.recv == recv && this.send == send
      ensures done == [] && pending == [] && closeFrame.None? && answers == [] && dropped == []
    {
      this.decoder, this.stream, this.connection, this.recv, this.send := decoder, stream, connection, recv, send;
      done, pending, closeFrame, answers, dropped, unsent := [], [], None, [], [], [];
      peerClosed, ended := false, false;
      new;
      ExactFromStart(decoder);
    }

    /** The decoder's `read`: the next unit, pulling from the stream only while it needs to. */
    method Next() returns (u: Unit)
      requires Usable()
      modifies this`done, this`pending, stream`readBuffer
      ensures u == decoder(old(done), old(Taken()))
      ensures SizeOf(u) <= |old(Taken())|
      ensures done == old(done) + old(Taken())[..SizeOf(u)]
      ensures Taken() == old(Taken())[SizeOf(u)..] && Whole() == old(Whole())
      ensures u.NeedMore? ==> stream.readBuffer == []
    {
      while true
        invariant done == old(done) && Taken() == old(Taken())
        decreases |stream.readBuffer|
      {
        u := decoder(done, pending);
        if !u.NeedMore? {
          SeenBefore(decoder, done, pending, stream.readBuffer);
          UnitMoves(done, pending, stream.readBuffer, connection.Buffer(), u.size);
          done := done + pending[..u.size];
          pending := pending[u.size..];
          return;
        }
        var buf := new byte[READ_CHUNK];
        var r := stream.Read(buf);
        if !r.Read? {
          assert pending == old(Taken());
          return;
        }
        pending := pending + buf[..r.count];
      }
    }

    /** Takes at most a block out of Envoy; only for a receive that waits, and only when all
        that was taken before is with the decoder. */
    method PullBlock() returns (taken: nat)
      requires Valid() && stream.readBuffer == [] && Queue(recv.View()) != []
      modifies stream`readBuffer, stream`totalRead, connection`chunks
      ensures taken == BlockLength(old(connection.Buffer()))
      ensures Valid() && Rest() == old(Rest()) && Taken() == old(Rest())[..|old(Taken())| + taken]
    {
      ghost var buffer := connection.Buffer();
      taken := stream.ReadBlock(connection);
      MovedKeeps(pending, buffer, taken);
      assert [] + buffer[..taken] == buffer[..taken];
    }

    /** Receives made by the application meanwhile. */
    method Arrive(futures: seq<nat>)
      requires recv.Valid()
      modifies this`dropped, recv
      ensures recv.Valid()
      ensures if old(recv.View()).Open? then
                recv.View() == Channel.Open(old(recv.View()).queue + futures) && dropped == old(dropped)
              else recv.View() == Shut && dropped == old(dropped) + futures
      ensures old(recv.View()).Open? ==>
                FuturesIn(answers) + Queue(recv.View()) == old(FuturesIn(answers) + Queue(recv.View())) + futures
    {
      ghost var before, gone := recv.View(), dropped;
      for k := 0 to |futures|
        invariant recv.Valid()
        invariant if before.Open? then
                    recv.View() == Channel.Open(before.queue + futures[..k]) && dropped == gone
                  else recv.View() == Shut && dropped == gone + futures[..k]
      {
        GrowsBy(Queue(before), futures, k);
        GrowsBy(gone, futures, k);
        var r := recv.Send(futures[k]);
        if r.Rejected? {
          dropped := dropped + [futures[k]];
        }
      }
      assert futures[..|futures|] == futures;
      Assoc(FuturesIn(answers), Queue(before), futures);
    }

    /** `process` on the receive bridge: every receive that waits is told about the close. */
    method DisconnectAll(frame: Frame)
      requires Usable()
      modifies this`closeFrame, this`answers, recv
      ensures Usable() && recv.View() == Drained(old(recv.View())) && closeFrame == Some(frame)
      ensures done == old(done) && Rest() == old(Rest()) && connection.Buffer() == old(connection.Buffer())
      ensures answers == old(answers) + Disconnects(Queue(old(recv.View())), frame)
      ensures MessagesIn(answers) == old(MessagesIn(answers))
      ensures FuturesIn(answers) == old(FuturesIn(answers) + Queue(recv.View()))
    {
      var futures := recv.Drain();
      DisconnectsAdd(answers, futures, frame);
      answers := answers + Disconnects(futures, frame);
      closeFrame := Some(frame);
    }

    /** `finish_close`: reads everything and decodes it, with no use for messages any more, until
        more bytes are needed or the connection can be closed. */
    method FinishClose()
      requires Usable()
      modifies this`done, this`pending, this`peerClosed, this`ended,
               stream`readBuffer, stream`totalRead, connection`chunks
      ensures Usable() && Whole() == old(Whole()) && connection.Buffer() == []
      ensures ended || decoder(done, Rest()).NeedMore?
    {
      stream.ReadFrom(connection);
      assert Rest() == old(Rest());
      while !ended
        invariant Usable() && Whole() == old(Whole()) && connection.Buffer() == []
        decreases !ended, !peerClosed, |Taken()|
      {
        if peerClosed {
          ended := true;
          return;
        }
        ghost var before, taken := done, Taken();
        var u := Next();
        if u.NeedMore? {
          assert done == before && Rest() == taken;
          return;
        }
        SeenBefore(decoder, before, taken, []);
        ended := u.Bad?;
        peerClosed := u.PeerClose?;
      }
    }

    /** `cleanup`: closing a bridge drops what waits on it; `late` receives were made after the
        others were told. */
    method CleanUp(late: seq<nat>)
      requires Usable()
      modifies this`dropped, this`unsent, recv, send
      ensures Usable() && recv.View() == Shut && send.View() == Shut
      ensures done == old(done) && Rest() == old(Rest()) && connection.Buffer() == old(connection.Buffer())
      ensures dropped == old(dropped) + (Queue(old(recv.View())) + late)
      ensures Queue(old(recv.View())) == [] ==> dropped == old(dropped) + late
      ensures unsent == old(unsent) + Queue(old(send.View()))
    {
      assert [] + late == late;
      Arrive(late);
      var waiting := recv.Close();
      dropped := dropped + waiting;
      var events := send.Close();
      unsent := unsent + events;
    }

    /** The end of the connection's messages, in the order of the code for a close frame or an
        error from the client. */
    method CloseDown(frame: Frame, late: seq<nat>)
      requires Usable()
      modifies this, stream`readBuffer, stream`totalRead, connection`chunks, recv, send
      ensures Valid() && ClosedWith(old(Account(late))) && closeFrame == Some(frame)
      ensures answers == old(answers) + Disconnects(Queue(old(recv.View())), frame)
    {
      ghost var books := Account(late);
      closeFrame := Some(frame);
      ReadOut(late, books);
      TellAll(frame, late, books);
      Shutdown(late, books);
    }

    /** A callback after the close has begun. */
    method CloseAgain(late: seq<nat>)
      requires Usable() && closeFrame.Some?
      modifies this, stream`readBuffer, stream`totalRead, connection`chunks, recv, send
      ensures Valid() && ClosedWith(old(Account(late)))
    {
      ghost var books := Account(late);
      TellAll(closeFrame.value, late, books);
      ReadOut(late, books);
      Shutdown(late, books);
    }

    ghost function Account(late: seq<nat>): Books
      reads this, stream, connection, recv
    {
      Books(Whole(), FuturesIn(answers) + Queue(recv.View()), dropped + late, MessagesIn(answers))
    }

    ghost predicate Keeps(books: Books, late: seq<nat>)
      reads this, stream, connection, recv
    {
      Account(late) == books
    }

    /** `DisconnectAll` and `FinishClose`, as far as the accounts go. */
    method TellAll(frame: Frame, ghost late: seq<nat>, ghost books: Books)
      requires Usable() && Keeps(books, late)
      modifies this`closeFrame, this`answers, recv
      ensures Usable() && Keeps(books, late) && Queue(recv.View()) == [] && closeFrame == Some(frame)
      ensures answers == old(answers) + Disconnects(Queue(old(recv.View())), frame)
      ensures done == old(done) && Rest() == old(Rest()) && connection.Buffer() == old(connection.Buffer())
    {
      DisconnectAll(frame);
    }

    method ReadOut(ghost late: seq<nat>, ghost books: Books)
      requires Usable() && Keeps(books, late)
      modifies this`done, this`pending, this`peerClosed, this`ended,
               stream`readBuffer, stream`totalRead, connection`chunks
      ensures Usable() && Keeps(books, late)
      ensures connection.Buffer() == [] && (ended || decoder(done, Rest()).NeedMore?)
    {
      FinishClose();
    }

    /** `CleanUp` with everything read and every receive told. */
    method Shutdown(late: seq<nat>, ghost books: Books)
      requires Usable() && closeFrame.Some? && Keeps(books, late) && Queue(recv.View()) == []
      requires connection.Buffer() == [] && (ended || decoder(done, Rest()).NeedMore?)
      modifies this`dropped, this`unsent, recv, send
      ensures Valid() && ClosedWith(books)
    {
      CleanUp(late);
    }

    /** Both bridges are shut, and everything is read. */
    ghost predicate ClosedWith(books: Books)
      reads this, stream, connection, recv, send
    {
      && closeFrame.Some? && recv.View() == Shut && send.View() == Shut
      && connection.Buffer() == [] && (ended || decoder(done, Rest()).NeedMore?)
      && books == Books(Whole(), FuturesIn(answers), dropped, MessagesIn(answers))
    }

    /** The receive that has waited longest gets the message. */
    method AnswerNext(body: Bytes)
      requires Sound(decoder) && recv.Valid() && recv.View().Open? && Queue(recv.View()) != []
      modifies this`answers, recv
      ensures recv.Valid() && recv.View() == FirstTaken(old(recv.View()))
      ensures answers == old(answers) + [Answer(Queue(old(recv.View()))[0], Received(body))]
      ensures Taken() == old(Taken()) && Whole() == old(Whole())
      ensures MessagesIn(answers) == old(MessagesIn(answers)) + [body]
      ensures FuturesIn(answers) + Queue(recv.View()) == old(FuturesIn(answers) + Queue(recv.View()))
    {
      var future := recv.Get();
      FlatMapPush(answers, MessageIn, Answer(future.value, Received(body)));
      FlatMapPush(answers, FutureIn, Answer(future.value, Received(body)));
      answers := answers + [Answer(future.value, Received(body))];
    }

    /** What was taken out of Envoy is at most `limit`, or less than a block, or a block beyond
        a unit that was incomplete. */
    ghost predicate Bounded(limit: nat, incomplete: nat)
      reads this, stream
    {
      || |Taken()| <= limit || |Taken()| < READ_BLOCK_SIZE
      || (incomplete <= |Taken()| <= incomplete + READ_BLOCK_SIZE
          && decoder(done, Taken()[..incomplete]).NeedMore?)
    }

    /** Where a turn of the loop leaves things, given the stream, the receives made so far in
        order, and those dropped before. `more` says that there is another turn. */
    ghost predicate Turned(more: bool, limit: nat, incomplete: nat, whole: Bytes, futures: seq<nat>,
                           gone: seq<nat>, late: seq<nat>)
      requires Sound(decoder)
      reads this, stream, connection, recv, send
    {
      && Valid() && Whole() == whole
      && (if closeFrame.None? then
            && FuturesIn(answers) + Queue(recv.View()) == futures && dropped == gone
            && Bounded(limit, incomplete)
            && (more ==> Queue(recv.View()) != [])
            && (!more && Queue(recv.View()) != [] ==> decoder(done, Rest()).NeedMore?)
            && (Queue(recv.View()) == [] ==> |Taken()| <= limit || |Taken()| < READ_BLOCK_SIZE)
          else
            !more && ClosedWith(Books(whole, futures, gone + late, Messages(decoder, [], whole))))
    }

    /** The loop has got to `l`; after a close, as far as the receives go. */
    ghost predicate Reached(more: bool, l: Loop)
      reads this, stream, connection, recv
    {
      if closeFrame.None? then View(if more then Decoding else Idle) == l
      else l.reading.Closing? && answers == l.answers && closeFrame == l.closeFrame
    }

    /** The loop has got to where a round from `l` takes it. */
    ghost predicate Rounded(more: bool, l: Loop)
      reads this, stream, connection, recv
    {
      Reached(more, AfterRound(l, Verdict(decoder, l.input)))
    }

    /** `l` is how things stood when the decoder had `taken` in front of it, after `before`. */
    ghost predicate Stood(l: Loop, before: Bytes, taken: Bytes)
      reads this, stream, connection, recv
    {
      && l == View(Decoding).(input := Input(Whole(), |before| + |taken|, |before|, false))
      && Decoded(l.input) == before && Ahead(l.input) == taken
    }

    /** Nothing to decode: more bytes are pulled, if Envoy has any. */
    method Pull(ghost limit: nat, ghost late: seq<nat>, ghost l: Loop) returns (more: bool)
      requires Valid() && closeFrame.None? && Queue(recv.View()) != [] && stream.readBuffer == []
      requires decoder(done, Taken()).NeedMore? && Stood(l, done, Taken())
      modifies stream`readBuffer, stream`totalRead, connection`chunks
      ensures Turned(more, limit, |old(Taken())|, old(Whole()),
                     old(FuturesIn(answers) + Queue(recv.View())), old(dropped), late)
      ensures more ==> |connection.Buffer()| < |old(connection.Buffer())|
      ensures Rounded(more, l)
    {
      InputParts(l.input, done, Taken(), connection.Buffer());
      var n := PullBlock();
      assert Taken()[..|old(Taken())|] == old(Taken());
      assert n == 0 ==> Rest() == old(Taken());
      more := n != 0;
    }

    /** A data message answers a receive; a control frame changes nothing here. */
    method Deliver(u: Unit, ghost before: Bytes, ghost taken: Bytes)
      requires Usable() && Queue(recv.View()) != [] && closeFrame.None?
      requires u == decoder(before, taken) && (u.Data? || u.Control?)
      requires u.size <= |taken| && done == before + taken[..u.size]
      requires Exact(decoder, before, MessagesIn(answers))
      modifies this`answers, recv
      ensures Valid()
      ensures FuturesIn(answers) + Queue(recv.View()) == old(FuturesIn(answers) + Queue(recv.View()))
      ensures View(Decoding).input == old(View(Decoding).input)
      ensures if u.Data? then
                && recv.View() == FirstTaken(old(recv.View()))
                && answers == old(answers) + [Answer(Queue(old(recv.View()))[0], Received(u.body))]
              else recv.View() == old(recv.View()) && answers == old(answers)
    {
      ExactNext(decoder, before, MessagesIn(answers), taken);
      assert MessagesIn(answers) + [] == MessagesIn(answers);
      if u.Data? {
        AnswerNext(u.body);
      }
    }

    /** The decoder has moved from `before`, with `taken` in front of it, past unit `u`. */
    ghost predicate Passed(u: Unit, before: Bytes, taken: Bytes)
      requires Sound(decoder)
      reads this, stream
    {
      && u == decoder(before, taken) && !u.NeedMore? && 0 < u.size <= |taken|
      && done == before + taken[..u.size] && Taken() == taken[u.size..]
      && Exact(decoder, before, MessagesIn(answers))
    }

    /** With what follows it, a round of the loop. */
    method DeliverRound(u: Unit, ghost before: Bytes, ghost taken: Bytes, ghost l: Loop) returns (more: bool)
      requires Usable() && Queue(recv.View()) != [] && closeFrame.None?
      requires Passed(u, before, taken) && (u.Data? || u.Control?) && Stood(l, before, taken)
      modifies this`answers, recv
      ensures Valid() && (more <==> Queue(recv.View()) != [])
      ensures FuturesIn(answers) + Queue(recv.View()) == old(FuturesIn(answers) + Queue(recv.View()))
      ensures Rounded(more, l)
    {
      ghost var input := View(Decoding).input;
      assert input == Advanced(l.input, u);
      Deliver(u, before, taken);
      DeliveredRound(l, u);
      var empty := recv.IsEmpty();
      more := !empty;
    }

    /** The rest of a turn after a message or a control frame. */
    method DeliverTurn(u: Unit, ghost before: Bytes, ghost taken: Bytes, ghost limit: nat, ghost incomplete: nat,
                       ghost late: seq<nat>, ghost l: Loop) returns (more: bool)
      requires Usable() && Queue(recv.View()) != [] && closeFrame.None?
      requires Passed(u, before, taken) && (u.Data? || u.Control?) && Stood(l, before, taken)
      requires |taken| <= limit || |taken| < READ_BLOCK_SIZE
               || (incomplete <= |taken| <= incomplete + READ_BLOCK_SIZE
                   && decoder(before, taken[..incomplete]).NeedMore?)
      modifies this`answers, recv
      ensures Turned(more, limit, incomplete, old(Whole()), old(FuturesIn(answers) + Queue(recv.View())),
                     old(dropped), late)
      ensures Taken() == old(Taken()) && connection.Buffer() == old(connection.Buffer())
      ensures Rounded(more, l)
    {
      if incomplete <= |taken| {
        SeenInPrefix(decoder, before, taken, incomplete);
      }
      assert |Taken()| <= limit || |Taken()| < READ_BLOCK_SIZE;
      more := DeliverRound(u, before, taken, l);
    }

    /** The rest of a turn after a close frame or an error. */
    method CloseTurn(u: Unit, late: seq<nat>, ghost before: Bytes, ghost taken: Bytes, ghost limit: nat,
                     ghost incomplete: nat, ghost l: Loop)
      requires Usable() && Passed(u, before, taken) && (u.PeerClose? || u.Bad?) && Stood(l, before, taken)
      requires Whole() == before + (taken + connection.Buffer())
      modifies this, stream`readBuffer, stream`totalRead, connection`chunks, recv, send
      ensures Turned(false, limit, incomplete, old(Whole()), old(FuturesIn(answers) + Queue(recv.View())),
                     old(dropped), late)
      ensures Rounded(false, l)
    {
      SeenBefore(decoder, before, taken, connection.Buffer());
      ExactEnd(decoder, before, MessagesIn(answers), taken + connection.Buffer());
      peerClosed := u.PeerClose?;
      CloseDown(CloseFrameOf(u), late);
    }

    /** A turn of the loop. */
    method Turn(arrivals: seq<nat>, late: seq<nat>, ghost limit: nat, ghost incomplete: nat)
      returns (more: bool, ghost incomplete': nat)
      requires Valid() && closeFrame.None? && Queue(recv.View()) != [] && Bounded(limit, incomplete)
      modifies this, stream`readBuffer, stream`totalRead, connection`chunks, recv, send
      ensures Sound(decoder)
      ensures Turned(more, limit, incomplete', old(Whole()),
                     old(FuturesIn(answers) + Queue(recv.View())) + arrivals, old(dropped), late)
      ensures Rounded(more, Joined(old(View(Decoding)), arrivals))
      ensures more ==> |connection.Buffer()| < |old(connection.Buffer())|
                       || (connection.Buffer() == old(connection.Buffer()) && |Taken()| < |old(Taken())|)
    {
      ghost var before, taken, rest := done, Taken(), connection.Buffer();
      ghost var l := Joined(View(Decoding), arrivals);
      InputParts(l.input, before, taken, rest);
      incomplete' := incomplete;
      var u := Next();
      Arrive(arrivals);
      if u.NeedMore? {
        assert done == before && Taken() == taken;
        incomplete' := |taken|;
        more := Pull(limit, late, l);
        return;
      }
      SeenBefore(decoder, before, taken, []);
      if u.Data? || u.Control? {
        more := DeliverTurn(u, before, taken, limit, incomplete, late, l);
      } else {
        CloseTurn(u, late, before, taken, limit, incomplete, l);
        more := false;
      }
    }

    /** The loop; with no receive waiting it does not run. */
    method ReadMessages(arriving: nat -> seq<nat>, late: seq<nat>) returns (rounds: nat, ghost incomplete: nat)
      requires Valid() && closeFrame.None?
      modifies this, stream`readBuffer, stream`totalRead, connection`chunks, recv, send
      ensures Sound(decoder)
      ensures Turned(false, |old(Taken())|, incomplete, old(Whole()),
                     WithArrivals(old(FuturesIn(answers) + Queue(recv.View())), arriving, rounds),
                     old(dropped), late)
      ensures Queue(old(recv.View())) == [] ==> unchanged(this) && unchanged(stream)
      ensures Queue(old(recv.View())) != [] ==>
                Reached(false, AfterRounds(decoder, old(View(Decoding)), arriving, rounds))
    {
      rounds, incomplete := 0, 0;
      ghost var l := View(Decoding);
      ghost var futures := FuturesIn(answers) + Queue(recv.View());
      ghost var whole, limit, gone := done + Rest(), |Taken()|, dropped;
      var empty := recv.IsEmpty();
      if empty {
        return;
      }
      var more := true;
      while more
        invariant Sound(decoder)
        invariant Turned(more, limit, incomplete, whole, WithArrivals(futures, arriving, rounds), gone, late)
        invariant Reached(more, AfterRounds(decoder, l, arriving, rounds))
        decreases more, |connection.Buffer()|, |Taken()|
      {
        more, incomplete := Turn(arriving(rounds), late, limit, incomplete);
        rounds := rounds + 1;
      }
    }

    /** One `read_web_socket`, from a callback. `arriving(k)` are the receives made by other
        threads during round `k` of the loop, and `late` those made while it disconnects. */
    method ReadWebSocket(arriving: nat -> seq<nat>, late: seq<nat>) returns (rounds: nat)
      requires Valid()
      modifies this, stream`readBuffer, stream`totalRead, connection`chunks, recv, send
      ensures Valid() && (closeFrame.Some? ==> recv.View() == Shut && send.View() == Shut)
      // no byte is lost, repeated or moved
      ensures Whole() == old(Whole())
      // each receive is answered in order, or waits, or is dropped
      ensures FuturesIn(answers) + Queue(recv.View()) ==
              WithArrivals(old(FuturesIn(answers) + Queue(recv.View())), arriving, rounds)
      ensures dropped == if closeFrame.Some? then old(dropped) + late else old(dropped)
      // messages go to receives until the receives, the bytes or the stream itself run out
      ensures old(closeFrame).None? ==>
                && MessagesIn(answers) <= Messages(decoder, [], old(Whole()))
                && (closeFrame.Some? || Queue(recv.View()) != [] ==>
                      MessagesIn(answers) == Messages(decoder, [], old(Whole())))
      ensures old(closeFrame).Some? ==> MessagesIn(answers) == old(MessagesIn(answers))
      // and all that in the steps of a run
      ensures old(closeFrame).None? && Queue(old(recv.View())) != [] ==>
                Reached(false, AfterRounds(decoder, old(View(Decoding)), arriving, rounds))
      // without a receive nothing is taken out of Envoy, and never much more than is used;
      // once the end has begun everything is read
      ensures old(closeFrame).None? && Queue(old(recv.View())) == [] ==> done == old(done) && Taken() == old(Taken())
      ensures closeFrame.Some? ==> connection.Buffer() == [] && (ended || decoder(done, Rest()).NeedMore?)
      ensures closeFrame.None? && Queue(recv.View()) == [] ==>
                |Taken()| <= |old(Taken())| || |Taken()| < READ_BLOCK_SIZE
    {
      if closeFrame.Some? {
        CloseAgain(late);
        return 0;
      }
      ghost var incomplete;
      rounds, incomplete := ReadMessages(arriving, late);
      if closeFrame.None? {
        ExactAt(decoder, done, MessagesIn(answers), Rest());
      }
    }
  }
}
