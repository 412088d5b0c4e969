/** Every run of a WebSocket connection: the application's calls on the loop thread, the
    callbacks of the filter, and the steps of its read loop, interleaved in any order. Tasks
    of the application may outlive it. */
module WebSocketRuns {
  import opened Basics
  import opened EventBridges
  import opened WebSockets
  import opened WebSocketReceives

  /** What decides the handshake. */
  datatype Decision = ToAccept | ToClose | ToFail | ToEnd

  /** What the application said, told from its messages: whether it accepted and closed; and while
      the bridge was open, the bodies it sent, the frames it closed with, whether it failed or
      ended, and the first of these things. */
  datatype Said = Said(
    accepted: bool, closed: bool, bodies: seq<Bytes>, closings: seq<Frame>, failed: bool, returned: bool,
    first: Option<Decision>)

  const NOTHING_SAID := Said(false, false, [], [], false, false, None)

  function Decide(open: bool, x: Said, d: Decision): Said {
    if open && x.first.None? then x.(first := Some(d)) else x
  }

  function SaidWith(open: bool, x: Said, m: Message): Said {
    if x.closed then x
    else
      match m
      case AcceptMessage(valid) => if valid && !x.accepted then Decide(open, x.(accepted := true), ToAccept) else x
      case DataMessage(valid, body) =>
        if valid && x.accepted && open then x.(bodies := x.bodies + [body]) else x
      case CloseMessage(codeAllowed, reasonValid, frame) =>
        if !codeAllowed then x
        else if !reasonValid then x.(closed := true)
        else Decide(open, x.(closed := true, closings := if open then x.closings + [frame] else x.closings), ToClose)
      case _ => x
  }

  function SaidAtEnd(open: bool, x: Said, ending: Ending): Said {
    match ending
    case Returned => Decide(open, x.(returned := x.returned || open), ToEnd)
    case Raised => Decide(open, x.(failed := x.failed || open), ToFail)
    case ClientGone => x
  }

  /** What the application is told about a message. */
  function AnswerTo(x: Said, m: Message, future: nat): Outcome {
    if x.closed then Disconnected
    else
      match m
      case Untyped => Invalid
      case AcceptMessage(valid) => if x.accepted then Unexpected else if valid then Waits(future) else Invalid
      case DataMessage(valid, _) => if !x.accepted then Unexpected else if valid then Waits(future) else Invalid
      case CloseMessage(codeAllowed, reasonValid, _) => if codeAllowed && reasonValid then Done else Invalid
      case OtherMessage => Unexpected
  }

  /** `reqOwed` and `respOwed` count commits that an application thread is about to make. The
      fields after `nextReceive` only record what happened: results set on receive futures,
      receives given a disconnect by being dropped, what the application said, and the unit that
      ended the client's stream. */
  datatype State = State(
    sender: SendState, filter: Filter, send: Channel<SendEvent>, recv: Channel<nat>,
    reqOwed: nat, reqCommits: nat, respOwed: nat, respCommits: nat,
    level: nat, reading: Reading, input: Input, destroyed: bool, nextSend: nat, nextReceive: nat,
    answers: seq<Answer>, dropped: seq<nat>, said: Said, found: Option<Unit>)

  const NEW_FILTER := Filter(StartHandshake, None, [], [], [], false)

  const START := State(Started, NEW_FILTER, Channel.Open([]), Channel.Open([]), 0, 0, 0, 0, 0, Idle,
                       Input([], 0, 0, false), false, 0, 0, [], [], NOTHING_SAID, None)

  /** What a round of the handshake finds. `leftover` was copied into the stream and is no part
      of the handshake, so the decoder will read it first. */
  datatype Handshake = Partial | NotUpgrade | Junk | Upgrade(leftover: Bytes)

  datatype Ending = Returned | Raised | ClientGone

  datatype Action =
    // the application
    | Send(message: Message) | Receive | End(ending: Ending) | CommitRequest | CommitResponse
    // callbacks
    | ReadHandshake(outcome: Handshake) | OnRead(data: Bytes) | ScheduledRequest | ScheduledResponse
    | Above | Below | Destroy
    // the read loop
    | Decode(unit: Unit) | CleanUp(ended: bool)

  predicate Enabled(s: State, a: Action) {
    var phase := s.filter.phase;
    var launched := !phase.StartHandshake? && !phase.NotWebSocket?;
    var callable := s.reading.Idle? && !s.destroyed;
    match a
    case Send(_) => launched
    case Receive => launched
    case End(_) => launched
    case CommitRequest => s.reqOwed > 0
    case CommitResponse => s.respOwed > 0
    case ReadHandshake(_) => callable && phase.StartHandshake?
    case OnRead(_) => callable && !phase.StartHandshake?
    case ScheduledRequest => callable && s.reqCommits > 0
    case ScheduledResponse => callable && s.respCommits > 0
    case Above => callable && !phase.StartHandshake? && !phase.FinishHandshake?
    case Below => callable && s.level > 0
    case Destroy => callable
    case Decode(_) => s.reading.Decoding?
    case CleanUp(_) => s.reading.Closing?
  }

  function BodyIn(e: SendEvent): seq<Bytes> {
    if e.SendMessage? then [e.body] else []
  }

  /** An event reaches the bridge and a commit will follow, or it is dropped with its future. */
  function Posted(s: State, e: SendEvent): State {
    if s.send.Open? then
      s.(send := Sent(s.send, e), respOwed := s.respOwed + 1)
    else s.(filter := Dropped(s.filter, e))
  }

  function AfterCall(s: State, m: Message): State {
    var (sender, sent, answer) := Called(s.sender, m, s.nextSend);
    var s1 := s.(sender := sender, nextSend := if answer.Waits? then s.nextSend + 1 else s.nextSend,
                 said := SaidWith(s.send.Open?, s.said, m));
    if sent.Some? then Posted(s1, sent.value) else s1
  }

  /** The application's task is over: a failure or an end is posted. */
  function AfterEnd(s: State, ending: Ending): State {
    var s1 := s.(said := SaidAtEnd(s.send.Open?, s.said, ending));
    match ending
    case ClientGone => s1
    case Raised => Posted(s1, Exception)
    case Returned => Posted(s1, Abort)
  }

  function AfterReceive(s: State): State {
    var s1 := s.(nextReceive := s.nextReceive + 1);
    if s.recv.Open? then s1.(recv := Sent(s.recv, s.nextReceive), reqOwed := s.reqOwed + 1)
    else s1.(dropped := s.dropped + [s.nextReceive])
  }

  function HandedOver(i: Input, leftover: Bytes): Input {
    Arrived(i, leftover).(taken := |i.arrived + leftover|)
  }

  function AfterHandshake(s: State, outcome: Handshake): State {
    match outcome
    case Partial => s
    case NotUpgrade => s.(filter := s.filter.(phase := NotWebSocket))
    case Junk =>
      s.(filter := s.filter.(phase := NotWebSocket, effects := s.filter.effects + [CloseConnection(BadHandshake)]))
    case Upgrade(leftover) =>
      s.(filter := s.filter.(phase := FinishHandshake), input := HandedOver(s.input, leftover))
  }

  /** The part of the state that the read loop works on. */
  function LoopOf(s: State): Loop {
    Loop(s.reading, s.input, s.recv, s.answers, s.filter.closeFrame)
  }

  function WithLoop(s: State, l: Loop): State {
    s.(reading := l.reading, input := l.input, recv := l.recv, answers := l.answers,
       filter := s.filter.(closeFrame := l.closeFrame))
  }

  /** Every receive that waits is told the close frame. */
  function Disconnecting(s: State, frame: Frame): State {
    WithLoop(s, Told(LoopOf(s), frame))
  }

  /** The start of `read_web_socket`. */
  function ReadStarts(s: State): State {
    if s.filter.closeFrame.Some? then Disconnecting(s, s.filter.closeFrame.value)
    else if Queue(s.recv) == [] then s
    else s.(reading := Decoding)
  }

  function RequestScheduled(s: State): State {
    match s.filter.phase
    case FinishHandshake =>
      if Queue(s.recv) == [] then s.(filter := s.filter.(panicked := true))
      else s.(recv := FirstTaken(s.recv), answers := s.answers + [Answer(Queue(s.recv)[0], Connect)])
    case Open => ReadStarts(s)
    case _ => s
  }

  /** `process_send_events`. */
  function ResponseScheduled(s: State): State {
    if s.level > 0 then s
    else if !s.filter.phase.FinishHandshake? then
      s.(filter := HandledAll(s.filter, Queue(s.send)), send := Drained(s.send))
    else if Queue(s.send) == [] then s.(filter := s.filter.(panicked := true))
    else
      s.(filter := Decided(s.filter, Queue(s.send)[0]), send := FirstTaken(s.send),
         reqCommits := if Queue(s.send)[0].Accept? then s.reqCommits + 1 else s.reqCommits)
  }

  /** One round of the read loop. At a close frame or an error a close frame goes out. */
  function Round(s: State, u: Unit): State {
    var s1 := WithLoop(s, AfterRound(LoopOf(s), u));
    if u.PeerClose? || u.Bad? then
      s1.(found := Some(u), filter := s1.filter.(effects := s.filter.effects + [SendClose(CloseFrameOf(u))]))
    else s1
  }

  /** `cleanup`: closing a bridge drops what waits on it. */
  function CleanedUp(s: State): State {
    s.(recv := Shut, dropped := s.dropped + Queue(s.recv), send := Shut, reading := Idle,
       filter := s.filter.(disconnected := s.filter.disconnected + FlatMap(Queue(s.send), FutureOf)))
  }

  /** `finish_close`: everything is read, and the connection closed if that is the end. */
  function CloseFinished(s: State, ended: bool): State {
    var effects := s.filter.effects + if ended then [CloseConnection(Finished)] else [];
    s.(filter := s.filter.(effects := effects), input := s.input.(taken := |s.input.arrived|))
  }

  function Arrived(i: Input, data: Bytes): Input {
    i.(arrived := i.arrived + data)
  }

  function AfterOnRead(s: State, data: Bytes): State {
    var s1 := s.(input := Arrived(s.input, data));
    match s.filter.phase
    case Open => ReadStarts(s1)
    case FinishHandshake => s1.(filter := s.filter.(effects := s.filter.effects + [CloseConnection(BadHandshake)]))
    case _ => s
  }

  function Apply(s: State, a: Action): State
    requires Enabled(s, a)
  {
    match a
    case Send(message) => AfterCall(s, message)
    case Receive => AfterReceive(s)
    case End(ending) => AfterEnd(s, ending)
    case CommitRequest => s.(reqOwed := s.reqOwed - 1, reqCommits := s.reqCommits + 1)
    case CommitResponse => s.(respOwed := s.respOwed - 1, respCommits := s.respCommits + 1)
    case ReadHandshake(outcome) => AfterHandshake(s, outcome)
    case OnRead(data) => AfterOnRead(s, data)
    case ScheduledRequest => RequestScheduled(s.(reqCommits := s.reqCommits - 1))
    case ScheduledResponse => ResponseScheduled(s.(respCommits := s.respCommits - 1))
    case Above => s.(level := s.level + 1)
    case Below => s.(level := s.level - 1, respCommits := s.respCommits + (if s.level == 1 then 1 else 0))
    case Destroy => CleanedUp(s).(destroyed := true)
    case Decode(unit) => Round(s, unit)
    case CleanUp(ended) => CloseFinished(CleanedUp(s), ended)
  }

  /** A round goes by what the decoder makes of the bytes. */
  predicate Allowed(d: Decoder, s: State, a: Action) {
    Enabled(s, a) && (a.Decode? ==> a.unit == Verdict(d, s.input))
  }

  predicate CanRun(d: Decoder, s: State, actions: seq<Action>)
    decreases |actions|
  {
    actions == [] || (Allowed(d, s, actions[0]) && CanRun(d, Apply(s, actions[0]), actions[1..]))
  }

  function Run(d: Decoder, s: State, actions: seq<Action>): State
    requires CanRun(d, s, actions)
    decreases |actions|
  {
    if actions == [] then s else Run(d, Apply(s, actions[0]), actions[1..])
  }

  // ---------------------------------------------------------------- no impossible case

  predicate OneAccept(queue: seq<SendEvent>) {
    forall i, j | 0 <= i < j < |queue| :: !(queue[i].Accept? && queue[j].Accept?)
  }

  predicate NeedsHandshake(e: SendEvent) {
    e.Accept? || e.SendMessage?
  }

  predicate NoneIn(queue: seq<SendEvent>) {
    forall e | e in queue :: !NeedsHandshake(e)
  }

  predicate NoAccept(queue: seq<SendEvent>) {
    forall e | e in queue :: !e.Accept?
  }

  // Before the application is started.
  ghost predicate Fresh(s: State) {
    && s.sender.Started? && s.reading.Idle?
    && Queue(s.send) == [] && Queue(s.recv) == []
    && s.reqOwed == s.reqCommits == s.respOwed == s.respCommits == 0
  }

  // While the application decides about the handshake: each commit has its bridge entry.
  ghost predicate Deciding(s: State) {
    && s.filter.closeFrame.None? && s.level == 0 && s.reading.Idle?
    && (!s.destroyed ==>
          && s.send.Open? && s.recv.Open?
          && s.reqOwed + s.reqCommits == |s.recv.queue|
          && s.respOwed + s.respCommits == |s.send.queue|
          && (s.send.queue != [] ==> !s.send.queue[0].SendMessage?)
          && (s.sender.Accepted? ==> s.send.queue != []))
  }

  ghost predicate Safe(s: State) {
    && !s.filter.panicked
    && (s.destroyed ==> s.reading.Idle? && s.send.Shut? && s.recv.Shut?)
    && (s.filter.phase.StartHandshake? ==>
          Fresh(s) && s.filter.closeFrame.None? && s.level == 0
          && (!s.destroyed ==> s.send.Open? && s.recv.Open?))
    && (s.filter.phase.NotWebSocket? ==> s.reading.Idle? && Queue(s.send) == [] && Queue(s.recv) == [])
    && (s.filter.phase.FinishHandshake? ==> Deciding(s))
    && (s.filter.phase.Open? ==> !s.sender.Started? && NoAccept(Queue(s.send)))
    && (s.filter.phase.Over? ==> s.reading.Idle?)
    && OneAccept(Queue(s.send))
    && (s.sender.Started? ==> NoneIn(Queue(s.send)))
    && (s.reading.Decoding? ==> Queue(s.recv) != [])
    && (!s.reading.Idle? ==> s.filter.phase.Open?)
  }

  lemma PostedKeepsSafe(s: State, e: SendEvent, sender: SendState, nextSend: nat, said: Said)
    requires Safe(s) && Enabled(s, Receive)
    requires e.Accept? ==> s.sender.Started? && sender.Accepted?
    requires e.SendMessage? ==> s.sender.Accepted?
    requires !e.Accept? ==> sender == s.sender || sender.Closed?
    ensures Safe(Posted(s.(sender := sender, nextSend := nextSend, said := said), e))
  {
    if e.Accept? && s.send.Open? {
      forall k | 0 <= k < |s.send.queue|
        ensures !s.send.queue[k].Accept?
      {
        assert s.send.queue[k] in s.send.queue;
      }
    }
  }

  lemma CallKeepsSafe(s: State, m: Message)
    requires Safe(s) && Enabled(s, Receive)
    ensures Safe(AfterCall(s, m))
  {
    var (sender, sent, answer) := Called(s.sender, m, s.nextSend);
    if sent.Some? {
      PostedKeepsSafe(s, sent.value, sender, if answer.Waits? then s.nextSend + 1 else s.nextSend,
                      SaidWith(s.send.Open?, s.said, m));
    }
  }

  lemma EndKeepsSafe(s: State, ending: Ending)
    requires Safe(s) && Enabled(s, Receive)
    ensures Safe(AfterEnd(s, ending))
  {
    if !ending.ClientGone? {
      PostedKeepsSafe(s, if ending.Raised? then Exception else Abort, s.sender, s.nextSend,
                      SaidAtEnd(s.send.Open?, s.said, ending));
    }
  }

  /** Later events cannot hit the arm for a second accept, and leave the phase alone. */
  lemma {:induction false} HandledAllIsSafe(f: Filter, events: seq<SendEvent>)
    requires !f.phase.FinishHandshake? && (f.phase.Open? ==> NoAccept(events))
    ensures HandledAll(f, events).panicked == f.panicked && HandledAll(f, events).phase == f.phase
    ensures events == [] ==> HandledAll(f, events) == f
    decreases |events|
  {
    if events != [] {
      assert events[0] in events;
      HandledAllIsSafe(Handled(f, events[0]), events[1..]);
    }
  }

  lemma ResponseKeepsSafe(s: State)
    requires Safe(s) && Enabled(s, ScheduledResponse)
    ensures Safe(Apply(s, ScheduledResponse))
  {
    if s.level == 0 {
      if s.filter.phase.FinishHandshake? {
        var queue := s.send.queue;
        if queue[0].Accept? {
          assert queue[0] in queue;
          forall e | e in queue[1..]
            ensures !e.Accept?
          {
            var k :| 0 <= k < |queue[1..]| && queue[1..][k] == e;
            assert queue[k + 1] == e;
          }
        }
      } else {
        HandledAllIsSafe(s.filter, Queue(s.send));
      }
    }
  }

  lemma RequestKeepsSafe(s: State)
    requires Safe(s) && Enabled(s, ScheduledRequest)
    ensures Safe(Apply(s, ScheduledRequest))
  {
  }

  lemma CleanupKeepsSafe(s: State)
    requires Safe(s)
    ensures s.reading.Closing? ==> Safe(CleanedUp(s))
    ensures s.reading.Idle? ==> Safe(CleanedUp(s).(destroyed := true))
  {
  }

  lemma RoundKeepsSafe(s: State, u: Unit)
    requires Safe(s) && s.reading.Decoding?
    ensures Safe(Round(s, u))
  {
  }

  lemma OnReadKeepsSafe(s: State, data: Bytes)
    requires Safe(s) && s.reading.Idle? && !s.destroyed && !s.filter.phase.StartHandshake?
    ensures Safe(AfterOnRead(s, data))
  {
  }

  lemma HandshakeKeepsSafe(s: State, outcome: Handshake)
    requires Safe(s) && s.filter.phase.StartHandshake? && !s.destroyed
    ensures Safe(AfterHandshake(s, outcome))
  {
  }

  lemma CloseKeepsSafe(s: State, ended: bool)
    requires Safe(s) && s.reading.Closing?
    ensures Safe(CloseFinished(CleanedUp(s), ended))
  {
    CleanupKeepsSafe(s);
  }

  lemma StepKeepsSafe(s: State, a: Action)
    requires Safe(s) && Enabled(s, a)
    ensures Safe(Apply(s, a))
  {
    match a
    case Send(message) => CallKeepsSafe(s, message);
    case End(ending) => EndKeepsSafe(s, ending);
    case ReadHandshake(outcome) => HandshakeKeepsSafe(s, outcome);
    case OnRead(data) => OnReadKeepsSafe(s, data);
    case ScheduledRequest => RequestKeepsSafe(s);
    case ScheduledResponse => ResponseKeepsSafe(s);
    case Decode(unit) => RoundKeepsSafe(s, unit);
    case Destroy => CleanupKeepsSafe(s);
    case CleanUp(ended) => CloseKeepsSafe(s, ended);
    case _ =>
  }

  // ---------------------------------------------------------------- the bytes

  /** All bytes received are with the decoder, and are no message yet. */
  ghost predicate UsedUp(d: Decoder, i: Input) {
    i.taken == |i.arrived| && Verdict(d, i).NeedMore?
  }

  // The messages answered are those decoded, whatever arrives next.
  ghost predicate InputOk(d: Decoder, i: Input, messages: seq<Bytes>)
    requires Sound(d)
  {
    && i.done <= i.taken <= |i.arrived|
    && (if i.ended then Complete(d, Decoded(i), messages) else Exact(d, Decoded(i), messages))
  }

  ghost predicate InputInv(d: Decoder, s: State)
    requires Sound(d)
  {
    && InputOk(d, s.input, MessagesIn(s.answers))
    && (s.input.ended ==> s.filter.closeFrame.Some?)
    && (s.reading.Decoding? ==> s.filter.closeFrame.None?)
  }

  lemma ArrivedKeepsInput(d: Decoder, i: Input, messages: seq<Bytes>, data: Bytes)
    requires Sound(d) && InputOk(d, i, messages)
    ensures InputOk(d, Arrived(i, data), messages)
  {
    assert (i.arrived + data)[..i.done] == i.arrived[..i.done];
  }

  lemma AdvancedKeepsInput(d: Decoder, i: Input, messages: seq<Bytes>)
    requires Sound(d) && InputOk(d, i, messages) && !i.ended && !Verdict(d, i).NeedMore?
    ensures InputOk(d, Advanced(i, Verdict(d, i)), messages + MessageOf(Verdict(d, i)))
  {
    var u := Verdict(d, i);
    SeenBefore(d, Decoded(i), Ahead(i), []);
    assert Decoded(i) + Ahead(i)[..u.size] == i.arrived[..i.done + u.size];
    if u.Data? || u.Control? {
      ExactNext(d, Decoded(i), messages, Ahead(i));
    } else {
      CompleteNext(d, Decoded(i), messages, Ahead(i));
      assert messages + [] == messages;
    }
  }

  lemma RoundKeepsInput(d: Decoder, s: State)
    requires Sound(d) && Safe(s) && InputInv(d, s) && s.reading.Decoding?
    ensures InputInv(d, Round(s, Verdict(d, s.input)))
  {
    var u := Verdict(d, s.input);
    var messages := MessagesIn(s.answers);
    if !u.NeedMore? {
      AdvancedKeepsInput(d, s.input, messages);
      assert messages + [] == messages;
      if u.Data? {
        FlatMapPush(s.answers, MessageIn, Answer(Queue(s.recv)[0], Received(u.body)));
      } else if !u.Control? {
        DisconnectsAdd(s.answers, Queue(s.recv), CloseFrameOf(u));
      }
    }
  }

  lemma ReadStartKeepsInput(d: Decoder, s: State)
    requires Sound(d) && InputInv(d, s)
    ensures InputInv(d, ReadStarts(s))
  {
    if s.filter.closeFrame.Some? {
      DisconnectsAdd(s.answers, Queue(s.recv), s.filter.closeFrame.value);
    }
  }

  lemma OnReadKeepsInput(d: Decoder, s: State, data: Bytes)
    requires Sound(d) && InputInv(d, s) && s.reading.Idle?
    ensures InputInv(d, AfterOnRead(s, data))
  {
    ArrivedKeepsInput(d, s.input, MessagesIn(s.answers), data);
    if s.filter.phase.Open? {
      ReadStartKeepsInput(d, s.(input := Arrived(s.input, data)));
    }
  }

  lemma HandshakeKeepsInput(d: Decoder, s: State, outcome: Handshake)
    requires Sound(d) && InputInv(d, s)
    ensures InputInv(d, AfterHandshake(s, outcome))
  {
    if outcome.Upgrade? {
      ArrivedKeepsInput(d, s.input, MessagesIn(s.answers), outcome.leftover);
    }
  }

  lemma RequestKeepsInput(d: Decoder, s: State)
    requires Sound(d) && InputInv(d, s) && s.reading.Idle?
    ensures InputInv(d, RequestScheduled(s))
  {
    if s.filter.phase.Open? {
      ReadStartKeepsInput(d, s);
    } else if s.filter.phase.FinishHandshake? && Queue(s.recv) != [] {
      FlatMapPush(s.answers, MessageIn, Answer(Queue(s.recv)[0], Connect));
      assert MessagesIn(s.answers) + [] == MessagesIn(s.answers);
    }
  }

  lemma OtherKeepsInput(d: Decoder, s: State, s': State)
    requires Sound(d) && InputInv(d, s)
    requires s'.answers == s.answers
    requires s'.input == s.input || s'.input == s.input.(taken := |s.input.arrived|)
    requires s.filter.closeFrame.Some? ==> s'.filter.closeFrame.Some?
    requires s'.reading.Decoding? ==> s.reading.Decoding? && s'.filter.closeFrame == s.filter.closeFrame
    ensures InputInv(d, s')
  {
  }

  lemma StepKeepsInput(d: Decoder, s: State, a: Action)
    requires Sound(d) && Safe(s) && InputInv(d, s) && Allowed(d, s, a)
    ensures InputInv(d, Apply(s, a))
  {
    match a
    case Decode(_) => RoundKeepsInput(d, s);
    case OnRead(data) => OnReadKeepsInput(d, s, data);
    case ReadHandshake(outcome) => HandshakeKeepsInput(d, s, outcome);
    case ScheduledRequest => RequestKeepsInput(d, s.(reqCommits := s.reqCommits - 1));
    case ScheduledResponse => ResponseKeepsInput(d, s);
    case _ =>
      InputUntouched(s, a);
      OtherKeepsInput(d, s, Apply(s, a));
  }

  /** The steps that neither read nor answer. */
  lemma InputUntouched(s: State, a: Action)
    requires Enabled(s, a) && !a.Decode? && !a.OnRead? && !a.ReadHandshake?
    requires !a.ScheduledRequest? && !a.ScheduledResponse?
    ensures var s' := Apply(s, a);
            && s'.answers == s.answers && s'.filter.closeFrame == s.filter.closeFrame
            && (s'.reading == s.reading || s'.reading.Idle?)
            && (s'.input == s.input || s'.input == s.input.(taken := |s.input.arrived|))
  {
  }

  lemma {:induction false} HandledAllKeepsClose(f: Filter, events: seq<SendEvent>)
    requires f.closeFrame.Some?
    ensures HandledAll(f, events).closeFrame.Some?
    decreases |events|
  {
    if events != [] {
      HandledAllKeepsClose(Handled(f, events[0]), events[1..]);
    }
  }

  lemma ResponseKeepsInput(d: Decoder, s: State)
    requires Sound(d) && Safe(s) && InputInv(d, s) && Enabled(s, ScheduledResponse)
    ensures InputInv(d, Apply(s, ScheduledResponse))
  {
    if s.filter.closeFrame.Some? && !s.filter.phase.FinishHandshake? {
      HandledAllKeepsClose(s.filter, Queue(s.send));
    }
    OtherKeepsInput(d, s, Apply(s, ScheduledResponse));
  }

  // ---------------------------------------------------------------- nothing is stranded

  // Something will look at the send bridge, and at the receives once there are bytes.
  ghost predicate Attended(d: Decoder, s: State) {
    && (Queue(s.send) != [] ==> s.respOwed > 0 || s.respCommits > 0 || s.level > 0)
    && (Queue(s.recv) != [] && s.filter.phase.Open? && s.reading.Idle? ==>
          s.reqOwed > 0 || s.reqCommits > 0 || UsedUp(d, s.input))
  }

  lemma ResponseKeepsAttended(d: Decoder, s: State)
    requires Safe(s) && Attended(d, s) && Enabled(s, ScheduledResponse)
    ensures Attended(d, Apply(s, ScheduledResponse))
  {
    if !s.filter.phase.FinishHandshake? {
      HandledAllIsSafe(s.filter, Queue(s.send));
    }
  }

  lemma RequestKeepsAttended(d: Decoder, s: State)
    requires Safe(s) && Attended(d, s) && Enabled(s, ScheduledRequest)
    ensures Attended(d, Apply(s, ScheduledRequest))
  {
  }

  lemma RoundKeepsAttended(d: Decoder, s: State)
    requires Sound(d) && Safe(s) && InputInv(d, s) && Attended(d, s) && s.reading.Decoding?
    ensures Attended(d, Round(s, Verdict(d, s.input)))
  {
  }

  lemma CallKeepsAttended(d: Decoder, s: State, m: Message)
    requires Attended(d, s)
    ensures Attended(d, AfterCall(s, m))
  {
  }

  lemma StepKeepsAttended(d: Decoder, s: State, a: Action)
    requires Sound(d) && Safe(s) && InputInv(d, s) && Attended(d, s) && Allowed(d, s, a)
    ensures Attended(d, Apply(s, a))
  {
    match a
    case ScheduledResponse => ResponseKeepsAttended(d, s);
    case ScheduledRequest => RequestKeepsAttended(d, s);
    case Decode(_) => RoundKeepsAttended(d, s);
    case OnRead(data) => OnReadKeepsAttended(d, s, data);
    case Send(message) => CallKeepsAttended(d, s, message);
    case ReadHandshake(_) =>
    case CleanUp(ended) => CloseKeepsAttended(d, s, ended);
    case _ => OtherKeepsAttended(d, s, a);
  }

  lemma CloseKeepsAttended(d: Decoder, s: State, ended: bool)
    ensures Attended(d, CloseFinished(CleanedUp(s), ended))
  {
  }

  lemma OtherKeepsAttended(d: Decoder, s: State, a: Action)
    requires Attended(d, s) && Enabled(s, a) && !a.Decode? && !a.CleanUp? && !a.OnRead? && !a.ReadHandshake?
    requires !a.Send? && !a.ScheduledRequest? && !a.ScheduledResponse?
    ensures Attended(d, Apply(s, a))
  {
  }

  lemma OnReadKeepsAttended(d: Decoder, s: State, data: Bytes)
    requires Attended(d, s) && s.reading.Idle?
    ensures Attended(d, AfterOnRead(s, data))
  {
  }

  // ---------------------------------------------------------------- the receives

  function Rank(e: ReceiveEvent): nat {
    match e
    case Connect => 0
    case Received(_) => 1
    case Disconnect(_) => 2
  }

  // Receives are answered in call order: connect events, then messages, then disconnects.
  ghost predicate AnswersOk(answers: seq<Answer>) {
    && (forall k | 0 <= k < |answers| :: answers[k].future == k)
    && (forall j, k | 0 <= j < k < |answers| :: Rank(answers[j].event) <= Rank(answers[k].event))
  }

  ghost predicate ReceivesInv(s: State) {
    && AnswersOk(s.answers)
    && |s.answers| <= s.nextReceive
    && (if s.recv.Open? then s.recv.queue == Range(|s.answers|, s.nextReceive) && s.dropped == []
        else s.dropped == Range(|s.answers|, s.nextReceive))
    && (forall a | a in s.answers ::
          && (a.event.Received? ==> s.filter.phase.Open?)
          && (a.event.Disconnect? ==> s.filter.phase.Open? && (s.reading.Closing? || s.recv.Shut?)))
    && (s.filter.phase.StartHandshake? ==> s.answers == [])
  }

  lemma AnswersPush(answers: seq<Answer>, a: Answer)
    requires AnswersOk(answers) && a.future == |answers|
    requires forall x | x in answers :: Rank(x.event) <= Rank(a.event)
    ensures AnswersOk(answers + [a])
  {
    forall j | 0 <= j < |answers|
      ensures Rank(answers[j].event) <= Rank(a.event)
    {
      assert answers[j] in answers;
    }
  }

  lemma AnswerKeepsReceives(s: State, event: ReceiveEvent, s': State)
    requires ReceivesInv(s) && s.recv.Open? && s.recv.queue != []
    requires s' == s.(recv := FirstTaken(s.recv), answers := s.answers + [Answer(Queue(s.recv)[0], event)],
                      reading := s'.reading)
    requires if event.Connect? then s.filter.phase.FinishHandshake? else event.Received? && s.filter.phase.Open?
    requires !s.reading.Closing?
    ensures ReceivesInv(s')
  {
    var n := |s.answers|;
    assert Range(n, s.nextReceive)[1..] == Range(n + 1, s.nextReceive);
    AnswersPush(s.answers, Answer(n, event));
  }

  lemma DisconnectsInOrder(answers: seq<Answer>, futures: seq<nat>, frame: Frame)
    requires AnswersOk(answers)
    requires futures == Range(|answers|, |answers| + |futures|)
    ensures AnswersOk(answers + Disconnects(futures, frame))
  {
    var all := answers + Disconnects(futures, frame);
    assert forall k | 0 <= k < |answers| :: all[k] == answers[k];
    assert forall k | |answers| <= k < |all| :: all[k] == Answer(k, Disconnect(frame));
  }

  lemma DisconnectingKeepsReceives(s: State, frame: Frame)
    requires ReceivesInv(s) && s.filter.phase.Open?
    ensures ReceivesInv(Disconnecting(s, frame))
  {
    var s' := Disconnecting(s, frame);
    DisconnectsInOrder(s.answers, Queue(s.recv), frame);
    assert Range(|s'.answers|, s.nextReceive) == if s.recv.Open? then [] else Range(|s.answers|, s.nextReceive);
  }

  lemma ReadStartKeepsReceives(s: State)
    requires Safe(s) && ReceivesInv(s) && s.filter.phase.Open? && s.reading.Idle?
    ensures ReceivesInv(ReadStarts(s))
  {
    if s.filter.closeFrame.Some? {
      DisconnectingKeepsReceives(s, s.filter.closeFrame.value);
    }
  }

  lemma RequestKeepsReceives(s: State)
    requires Safe(s) && ReceivesInv(s) && Enabled(s, ScheduledRequest)
    ensures ReceivesInv(Apply(s, ScheduledRequest))
  {
    var s1 := s.(reqCommits := s.reqCommits - 1);
    if s.filter.phase.FinishHandshake? {
      AnswerKeepsReceives(s1, Connect, Apply(s, ScheduledRequest));
    } else if s.filter.phase.Open? {
      ReadStartKeepsReceives(s1);
    }
  }

  /** Steps that leave the receives alone, as far as they are concerned. */
  lemma OtherKeepsReceives(s: State, s': State)
    requires ReceivesInv(s)
    requires s'.answers == s.answers && s'.recv == s.recv
    requires s'.dropped == s.dropped && s'.nextReceive == s.nextReceive
    requires s.filter.phase.Open? ==> s'.filter.phase.Open?
    requires s.reading.Closing? ==> s'.reading.Closing?
    requires s'.filter.phase.StartHandshake? ==> s.filter.phase.StartHandshake?
    ensures ReceivesInv(s')
  {
  }

  lemma CleanupKeepsReceives(s: State)
    requires ReceivesInv(s)
    ensures ReceivesInv(CleanedUp(s)) && ReceivesInv(CleanedUp(s).(destroyed := true))
  {
  }

  lemma ResponseKeepsReceives(s: State)
    requires Safe(s) && ReceivesInv(s) && Enabled(s, ScheduledResponse)
    ensures ReceivesInv(Apply(s, ScheduledResponse))
  {
    if !s.filter.phase.FinishHandshake? {
      HandledAllIsSafe(s.filter, Queue(s.send));
    }
    OtherKeepsReceives(s, Apply(s, ScheduledResponse));
  }

  lemma ReceiveKeepsReceives(s: State)
    requires ReceivesInv(s)
    ensures ReceivesInv(AfterReceive(s))
  {
    assert Range(|s.answers|, s.nextReceive + 1) == Range(|s.answers|, s.nextReceive) + [s.nextReceive];
  }

  lemma RoundKeepsReceives(s: State, u: Unit)
    requires Safe(s) && ReceivesInv(s) && s.reading.Decoding?
    ensures ReceivesInv(Round(s, u))
  {
    var s1 := s.(input := Advanced(s.input, u));
    OtherKeepsReceives(s, s1);
    match u
    case Data(body, _) => AnswerKeepsReceives(s1, Received(body), Round(s, u));
    case Control(_) =>
    case NeedMore => OtherKeepsReceives(s, Round(s, u));
    case _ =>
      DisconnectingKeepsReceives(s1, CloseFrameOf(u));
      OtherKeepsReceives(Disconnecting(s1, CloseFrameOf(u)), Round(s, u));
  }

  lemma CallKeepsReceives(s: State, m: Message)
    requires ReceivesInv(s)
    ensures ReceivesInv(AfterCall(s, m))
  {
    OtherKeepsReceives(s, AfterCall(s, m));
  }

  lemma HandshakeKeepsReceives(s: State, outcome: Handshake)
    requires ReceivesInv(s) && s.filter.phase.StartHandshake?
    ensures ReceivesInv(AfterHandshake(s, outcome))
  {
    OtherKeepsReceives(s, AfterHandshake(s, outcome));
  }

  lemma OnReadKeepsReceives(s: State, data: Bytes)
    requires Safe(s) && ReceivesInv(s) && s.reading.Idle?
    ensures ReceivesInv(AfterOnRead(s, data))
  {
    var s1 := s.(input := Arrived(s.input, data));
    OtherKeepsReceives(s, s1);
    if s.filter.phase.Open? {
      ReadStartKeepsReceives(s1);
    } else {
      OtherKeepsReceives(s, AfterOnRead(s, data));
    }
  }

  lemma CloseKeepsReceives(s: State, ended: bool)
    requires ReceivesInv(s)
    ensures ReceivesInv(CloseFinished(CleanedUp(s), ended))
  {
    CleanupKeepsReceives(s);
    OtherKeepsReceives(CleanedUp(s), CloseFinished(CleanedUp(s), ended));
  }

  lemma StepKeepsReceives(s: State, a: Action)
    requires Safe(s) && ReceivesInv(s) && Enabled(s, a)
    ensures ReceivesInv(Apply(s, a))
  {
    match a
    case Send(message) => CallKeepsReceives(s, message);
    case End(ending) => OtherKeepsReceives(s, AfterEnd(s, ending));
    case ReadHandshake(outcome) => HandshakeKeepsReceives(s, outcome);
    case Receive => ReceiveKeepsReceives(s);
    case ScheduledRequest => RequestKeepsReceives(s);
    case ScheduledResponse => ResponseKeepsReceives(s);
    case OnRead(data) => OnReadKeepsReceives(s, data);
    case Decode(unit) => RoundKeepsReceives(s, unit);
    case Destroy => CleanupKeepsReceives(s);
    case CleanUp(ended) => CloseKeepsReceives(s, ended);
    case _ => OtherKeepsReceives(s, Apply(s, a));
  }

  // ---------------------------------------------------------------- what goes to the client

  predicate Answers(e: Effect) {
    e.Respond101? || e.Respond403? || e.Respond500?
  }

  predicate IsFrame(e: Effect) {
    e.SendFrame? || e.SendClose?
  }

  /** What may come after what: one handshake answer, before any frame; no message after a close
      frame, and the end of the application does not cut the connection then. */
  predicate Follows(a: Effect, b: Effect) {
    && !(Answers(a) && Answers(b))
    && !(IsFrame(a) && Answers(b))
    && !(a.SendClose? && (b.SendFrame? || b == CloseConnection(AppEnded)))
  }

  ghost predicate InOrder(effects: seq<Effect>) {
    forall i, j | 0 <= i < j < |effects| :: Follows(effects[i], effects[j])
  }

  /** What can have been sent in a phase; `closed` says that a close frame is known. */
  predicate Fits(e: Effect, phase: Phase, closed: bool) {
    && (IsFrame(e) ==> phase.Open?)
    && (e.SendClose? ==> closed)
    && (Answers(e) ==> phase.Over? || (e.Respond101? && phase.Open?))
  }

  ghost predicate AllFit(effects: seq<Effect>, phase: Phase, closed: bool) {
    forall e | e in effects :: Fits(e, phase, closed)
  }

  ghost predicate EffectsOk(f: Filter) {
    && InOrder(f.effects)
    && AllFit(f.effects, f.phase, f.closeFrame.Some?)
    && (f.phase.Open? ==> Respond101 in f.effects)
  }

  function FrameIn(e: Effect): seq<Bytes> {
    if e.SendFrame? then [e.body] else []
  }

  /** The message bodies sent to the client. */
  function Frames(f: Filter): seq<Bytes> {
    FlatMap(f.effects, FrameIn)
  }

  ghost predicate OutputInv(s: State) {
    && EffectsOk(s.filter)
    && Frames(s.filter) <= s.said.bodies
    && (s.send.Open? && s.filter.closeFrame.None? && !s.filter.phase.Over? ==>
          Frames(s.filter) + FlatMap(s.send.queue, BodyIn) == s.said.bodies)
  }

  lemma InOrderPush(effects: seq<Effect>, e: Effect)
    requires InOrder(effects) && forall x | x in effects :: Follows(x, e)
    ensures InOrder(effects + [e])
  {
    forall i, j | 0 <= i < j < |effects| + 1
      ensures Follows((effects + [e])[i], (effects + [e])[j])
    {
      assert effects[i] in effects;
    }
  }

  lemma EffectKeepsOrder(f: Filter, f': Filter, e: Effect)
    requires EffectsOk(f) && f'.effects == f.effects + [e]
    requires f'.phase == f.phase && (f.closeFrame.Some? ==> f'.closeFrame.Some?)
    requires IsFrame(e) ==> f.phase.Open?
    requires e.SendFrame? || e == CloseConnection(AppEnded) ==> f.closeFrame.None?
    requires e.SendClose? ==> f'.closeFrame.Some?
    requires !Answers(e)
    ensures EffectsOk(f') && Frames(f') == Frames(f) + FrameIn(e)
  {
    InOrderPush(f.effects, e);
    FlatMapPush(f.effects, FrameIn, e);
  }

  lemma HandledKeepsOrder(f: Filter, e: SendEvent)
    requires EffectsOk(f) && (f.phase.Open? ==> !e.Accept?)
    ensures var f' := Handled(f, e);
            && EffectsOk(f')
            && (f.closeFrame.Some? ==> f'.closeFrame.Some?)
            && Frames(f') == Frames(f) + if f.phase.Open? && f.closeFrame.None? then BodyIn(e) else []
  {
    var f' := Handled(f, e);
    HandledShowsOne(f, e);
    if f'.effects == f.effects {
      assert Frames(f) + [] == Frames(f);
    } else {
      EffectKeepsOrder(f, f', f'.effects[|f.effects|]);
    }
  }

  lemma HandledShowsOne(f: Filter, e: SendEvent)
    requires f.phase.Open? ==> !e.Accept?
    ensures var f' := Handled(f, e);
            var bodies := if f.phase.Open? && f.closeFrame.None? then BodyIn(e) else [];
            && f'.phase == f.phase
            && (if f'.effects == f.effects then bodies == []
                else
                  && |f'.effects| == |f.effects| + 1
                  && f'.effects == f.effects + [f'.effects[|f.effects|]]
                  && FrameIn(f'.effects[|f.effects|]) == bodies)
  {
  }

  /** A batch keeps the order; after a close, or outside the open phase, it sends nothing. */
  lemma {:induction false} HandledAllKeepsOrder(f: Filter, events: seq<SendEvent>)
    requires EffectsOk(f) && (f.phase.Open? ==> NoAccept(events))
    ensures var f' := HandledAll(f, events);
            && EffectsOk(f')
            && (f.closeFrame.Some? ==> f'.closeFrame.Some? && Frames(f') == Frames(f))
            && (!f.phase.Open? ==> Frames(f') == Frames(f) && f'.closeFrame == f.closeFrame)
    decreases |events|
  {
    if events != [] {
      assert events[0] in events;
      HandledKeepsOrder(f, events[0]);
      HandledAllKeepsOrder(Handled(f, events[0]), events[1..]);
    }
  }

  /** An open connection sends the messages of a batch in order up to the first close. */
  lemma {:induction false} HandledAllFrames(f: Filter, events: seq<SendEvent>)
    requires EffectsOk(f) && f.phase.Open? && f.closeFrame.None? && NoAccept(events)
    ensures var f' := HandledAll(f, events);
            && Frames(f) <= Frames(f') <= Frames(f) + FlatMap(events, BodyIn)
            && (f'.closeFrame.None? ==> Frames(f') == Frames(f) + FlatMap(events, BodyIn))
    decreases |events|
  {
    if events != [] {
      assert events[0] in events;
      var f1 := Handled(f, events[0]);
      HandledKeepsOrder(f, events[0]);
      BodiesFrom(events);
      Assoc(Frames(f), BodyIn(events[0]), FlatMap(events[1..], BodyIn));
      if f1.closeFrame.Some? {
        HandledAllKeepsOrder(f1, events[1..]);
      } else {
        HandledAllFrames(f1, events[1..]);
      }
    }
  }

  lemma BodiesFrom(events: seq<SendEvent>)
    requires events != []
    ensures FlatMap(events, BodyIn) == BodyIn(events[0]) + FlatMap(events[1..], BodyIn)
  {
    assert events == [events[0]] + events[1..];
    FlatMapAppend([events[0]], events[1..], BodyIn);
    FlatMapOne(BodyIn, events[0]);
  }

  /** The handshake answer is the first of its kind, and comes before every frame. */
  lemma DecidedKeepsOrder(f: Filter, e: SendEvent)
    requires EffectsOk(f) && f.phase.FinishHandshake? && !e.SendMessage?
    ensures EffectsOk(Decided(f, e)) && Frames(Decided(f, e)) == Frames(f) == []
  {
    var f' := Decided(f, e);
    var effect := f'.effects[|f.effects|];
    assert f'.effects == f.effects + [effect];
    AnswerPush(f.effects, effect, f'.phase, f.closeFrame.Some?, f'.closeFrame.Some?);
  }

  lemma AnswerPush(effects: seq<Effect>, e: Effect, phase: Phase, closed: bool, closed': bool)
    requires InOrder(effects) && AllFit(effects, FinishHandshake, closed)
    requires !IsFrame(e) && Fits(e, phase, closed')
    ensures InOrder(effects + [e]) && AllFit(effects + [e], phase, closed')
    ensures FlatMap(effects + [e], FrameIn) == FlatMap(effects, FrameIn) == []
  {
    InOrderPush(effects, e);
    FlatMapPush(effects, FrameIn, e);
    FlatMapNone(effects, FrameIn);
  }

  lemma DecidedKeepsOutput(s: State)
    requires OutputInv(s) && s.filter.phase.FinishHandshake? && s.send.Open? && s.send.queue != []
    requires s.filter.closeFrame.None? && !s.send.queue[0].SendMessage?
    ensures OutputInv(s.(filter := Decided(s.filter, s.send.queue[0]), send := FirstTaken(s.send)))
  {
    var queue := s.send.queue;
    DecidedKeepsOrder(s.filter, queue[0]);
    BodiesFrom(queue);
  }

  lemma ResponseKeepsOutput(s: State)
    requires Safe(s) && OutputInv(s) && Enabled(s, ScheduledResponse)
    ensures OutputInv(Apply(s, ScheduledResponse))
  {
    if s.level == 0 {
      if s.filter.phase.FinishHandshake? {
        DecidedKeepsOutput(s);
      } else {
        HandledAllIsSafe(s.filter, Queue(s.send));
        HandledAllKeepsOrder(s.filter, Queue(s.send));
        if s.filter.phase.Open? && s.filter.closeFrame.None? {
          HandledAllFrames(s.filter, Queue(s.send));
        }
      }
    }
  }

  lemma PostedKeepsOutput(s: State, e: SendEvent, said: Said)
    requires OutputInv(s)
    requires said.bodies == s.said.bodies + (if s.send.Open? then BodyIn(e) else [])
    ensures OutputInv(Posted(s.(said := said), e))
  {
    if s.send.Open? {
      FlatMapPush(s.send.queue, BodyIn, e);
      Assoc(Frames(s.filter), FlatMap(s.send.queue, BodyIn), BodyIn(e));
      PrefixGrows(Frames(s.filter), s.said.bodies, BodyIn(e));
    } else {
      assert s.said.bodies + [] == s.said.bodies;
    }
  }

  lemma PrefixGrows(a: seq<Bytes>, b: seq<Bytes>, more: seq<Bytes>)
    requires a <= b
    ensures a <= b + more
  {
  }

  lemma CallKeepsOutput(s: State, m: Message)
    requires OutputInv(s) && s.sender == SenderFor(s.said)
    ensures OutputInv(AfterCall(s, m))
  {
    var (sender, sent, answer) := Called(s.sender, m, s.nextSend);
    var s' := AfterCall(s, m);
    CallAgrees(s.send.Open?, s.said, m, s.nextSend);
    if sent.Some? {
      PostedKeepsOutput(s.(sender := sender, nextSend := s'.nextSend), sent.value, s'.said);
    } else {
      assert s.said.bodies + [] == s.said.bodies;
    }
  }

  lemma EndKeepsOutput(s: State, ending: Ending)
    requires OutputInv(s)
    ensures OutputInv(AfterEnd(s, ending))
  {
    if !ending.ClientGone? {
      assert s.said.bodies + [] == s.said.bodies;
      PostedKeepsOutput(s, if ending.Raised? then Exception else Abort, SaidAtEnd(s.send.Open?, s.said, ending));
    }
  }

  /** An effect that is no message. */
  lemma EffectKeepsOutput(s: State, f: Filter, e: Effect)
    requires OutputInv(s) && f == s.filter.(closeFrame := f.closeFrame)
    requires s.filter.closeFrame.Some? ==> f.closeFrame.Some?
    requires (e.CloseConnection? && !e.why.AppEnded?) || (e.SendClose? && f.phase.Open? && f.closeFrame.Some?)
    ensures OutputInv(s.(filter := f.(effects := f.effects + [e])))
  {
    EffectKeepsOrder(s.filter, f.(effects := f.effects + [e]), e);
    assert Frames(s.filter) + [] == Frames(s.filter);
  }

  /** Steps that neither send nor take events. */
  lemma OtherKeepsOutput(s: State, s': State)
    requires OutputInv(s) && s'.said.bodies == s.said.bodies && (s'.send == s.send || s'.send.Shut?)
    requires s'.filter.effects == s.filter.effects
    requires s.filter.closeFrame.Some? ==> s'.filter.closeFrame.Some?
    requires s'.filter.phase == s.filter.phase
             || (s.filter.phase.StartHandshake? && (s'.filter.phase.NotWebSocket? || s'.filter.phase.FinishHandshake?))
    ensures OutputInv(s')
  {
  }

  lemma StepKeepsOutput(s: State, a: Action)
    requires Safe(s) && OutputInv(s) && s.sender == SenderFor(s.said) && Enabled(s, a)
    ensures OutputInv(Apply(s, a))
  {
    match a
    case Send(message) => CallKeepsOutput(s, message);
    case End(ending) => EndKeepsOutput(s, ending);
    case ScheduledResponse => ResponseKeepsOutput(s);
    case ReadHandshake(outcome) =>
      if outcome.Junk? {
        EffectKeepsOutput(s, s.filter, CloseConnection(BadHandshake));
        var f := s.filter.(effects := s.filter.effects + [CloseConnection(BadHandshake)]);
        OtherKeepsOutput(s.(filter := f), Apply(s, a));
      } else {
        OtherKeepsOutput(s, Apply(s, a));
      }
    case OnRead(data) => OnReadKeepsOutput(s, data);
    case Decode(unit) => RoundKeepsOutput(s, unit);
    case CleanUp(ended) => CloseKeepsOutput(s, ended);
    case _ => OtherKeepsOutput(s, Apply(s, a));
  }

  lemma OnReadKeepsOutput(s: State, data: Bytes)
    requires Safe(s) && OutputInv(s)
    ensures OutputInv(AfterOnRead(s, data))
  {
    var s1 := s.(input := Arrived(s.input, data));
    OtherKeepsOutput(s, s1);
    if s.filter.phase.FinishHandshake? {
      EffectKeepsOutput(s1, s.filter, CloseConnection(BadHandshake));
    } else {
      OtherKeepsOutput(s, AfterOnRead(s, data));
    }
  }

  lemma RoundKeepsOutput(s: State, u: Unit)
    requires Safe(s) && OutputInv(s) && s.reading.Decoding?
    ensures OutputInv(Round(s, u))
  {
    if u.PeerClose? || u.Bad? {
      var s1 := s.(input := Advanced(s.input, u));
      OtherKeepsOutput(s, s1);
      var frame := CloseFrameOf(u);
      EffectKeepsOutput(s1, s1.filter.(closeFrame := Some(frame)), SendClose(frame));
      var s2 := s1.(filter := s1.filter.(closeFrame := Some(frame), effects := s1.filter.effects + [SendClose(frame)]));
      OtherKeepsOutput(s2, Round(s, u));
    } else {
      OtherKeepsOutput(s, Round(s, u));
    }
  }

  lemma CloseKeepsOutput(s: State, ended: bool)
    requires Safe(s) && OutputInv(s)
    ensures OutputInv(CloseFinished(CleanedUp(s), ended))
  {
    var s1 := CleanedUp(s);
    OtherKeepsOutput(s, s1);
    if ended {
      EffectKeepsOutput(s1, s1.filter, CloseConnection(Finished));
      var s2 := s1.(filter := s1.filter.(effects := s1.filter.effects + [CloseConnection(Finished)]));
      OtherKeepsOutput(s2, CloseFinished(s1, ended));
    } else {
      assert s1.filter.effects + [] == s1.filter.effects;
      OtherKeepsOutput(s1, CloseFinished(s1, ended));
    }
  }

  // ---------------------------------------------------------------- the send futures

  /** How often a send future was resolved, with a result or a failure. */
  function Resolutions(f: Filter, future: nat): nat {
    Sum(f.written, Is(future)) + Sum(f.disconnected, Is(future))
  }

  /** 1 for an effect that comes with a send future's success. */
  function Succeeds(e: Effect): nat {
    if e.SendFrame? || e.Respond101? then 1 else 0
  }

  // As many futures succeed as accepts and messages go out.
  predicate WrittenOk(f: Filter) {
    |f.written| == Sum(f.effects, Succeeds)
  }

  lemma EffectKeepsWritten(f: Filter, e: Effect, f': Filter)
    requires WrittenOk(f) && f'.effects == f.effects + [e] && |f'.written| == |f.written| + Succeeds(e)
    ensures WrittenOk(f')
  {
    SumPush(f.effects, Succeeds, e);
  }

  lemma HandledKeepsWritten(f: Filter, e: SendEvent)
    requires WrittenOk(f) && (f.phase.Open? ==> !e.Accept?)
    ensures WrittenOk(Handled(f, e))
  {
    var f' := Handled(f, e);
    if f'.effects != f.effects {
      EffectKeepsWritten(f, f'.effects[|f.effects|], f');
    }
  }

  lemma {:induction false} HandledAllKeepsWritten(f: Filter, events: seq<SendEvent>)
    requires WrittenOk(f) && (f.phase.Open? ==> NoAccept(events))
    ensures WrittenOk(HandledAll(f, events))
    decreases |events|
  {
    if events != [] {
      assert events[0] in events;
      HandledKeepsWritten(f, events[0]);
      HandledAllKeepsWritten(Handled(f, events[0]), events[1..]);
    }
  }

  lemma ResponseKeepsWritten(s: State)
    requires Safe(s) && WrittenOk(s.filter) && Enabled(s, ScheduledResponse)
    ensures WrittenOk(Apply(s, ScheduledResponse).filter)
  {
    if s.level == 0 {
      if s.filter.phase.FinishHandshake? {
        var f := Decided(s.filter, s.send.queue[0]);
        EffectKeepsWritten(s.filter, f.effects[|s.filter.effects|], f);
      } else {
        HandledAllKeepsWritten(s.filter, Queue(s.send));
      }
    }
  }

  lemma StepKeepsWritten(s: State, a: Action)
    requires Safe(s) && WrittenOk(s.filter) && Enabled(s, a)
    ensures WrittenOk(Apply(s, a).filter)
  {
    if a.ScheduledResponse? {
      ResponseKeepsWritten(s);
    } else {
      OneEffect(s, a);
      var f, f' := s.filter, Apply(s, a).filter;
      if f'.effects != f.effects {
        EffectKeepsWritten(f, f'.effects[|f.effects|], f');
      }
    }
  }

  /** A step that handles no event resolves no future with success, and shows at most one thing. */
  lemma OneEffect(s: State, a: Action)
    requires Enabled(s, a) && !a.ScheduledResponse?
    ensures var f, f' := s.filter, Apply(s, a).filter;
            && f'.written == f.written
            && (f'.effects == f.effects
                || (|f'.effects| == |f.effects| + 1 && f'.effects == f.effects + [f'.effects[|f.effects|]]
                    && Succeeds(f'.effects[|f.effects|]) == 0))
  {
    assert s.filter.effects + [] == s.filter.effects;
  }

  // Every send future issued is in exactly one place.
  ghost predicate FuturesInv(s: State, future: nat) {
    Resolutions(s.filter, future) + Sum(Queue(s.send), Found(FutureOf, future))
    == if future < s.nextSend then 1 else 0
  }

  /** Handling an event resolves its future, one way or the other. */
  lemma HandledResolves(f: Filter, e: SendEvent, future: nat)
    requires f.phase.Open? ==> !e.Accept?
    ensures Resolutions(Handled(f, e), future) == Resolutions(f, future) + Found(FutureOf, future)(e)
  {
    SumAppend(f.written, FutureOf(e), Is(future));
    SumAppend(f.disconnected, FutureOf(e), Is(future));
    if FutureOf(e) == [] {
      assert f.disconnected + [] == f.disconnected;
    }
  }

  lemma {:induction false} HandledAllResolves(f: Filter, events: seq<SendEvent>, future: nat)
    requires f.phase.Open? ==> NoAccept(events)
    ensures Resolutions(HandledAll(f, events), future) == Resolutions(f, future) + Sum(events, Found(FutureOf, future))
    decreases |events|
  {
    if events != [] {
      assert events[0] in events;
      HandledResolves(f, events[0], future);
      assert Handled(f, events[0]).phase == f.phase;
      HandledAllResolves(Handled(f, events[0]), events[1..], future);
    }
  }

  lemma PostedKeepsFutures(s: State, e: SendEvent, next: nat, future: nat)
    requires FuturesInv(s, future) && next == s.nextSend + |FutureOf(e)|
    requires FutureOf(e) == [] || FutureOf(e) == [s.nextSend]
    ensures FuturesInv(Posted(s, e).(nextSend := next), future)
  {
    SumPush(Queue(s.send), Found(FutureOf, future), e);
    SumAppend(s.filter.disconnected, FutureOf(e), Is(future));
  }

  lemma CallKeepsFutures(s: State, m: Message, future: nat)
    requires FuturesInv(s, future)
    ensures FuturesInv(AfterCall(s, m), future)
  {
    var (sender, sent, answer) := Called(s.sender, m, s.nextSend);
    if sent.Some? {
      var s' := AfterCall(s, m);
      PostedKeepsFutures(s, sent.value, s'.nextSend, future);
      var s1 := Posted(s, sent.value).(nextSend := s'.nextSend);
      assert s'.filter == s1.filter && s'.send == s1.send && s'.nextSend == s1.nextSend;
    }
  }

  lemma EndKeepsFutures(s: State, ending: Ending, future: nat)
    requires FuturesInv(s, future)
    ensures FuturesInv(AfterEnd(s, ending), future)
  {
    if !ending.ClientGone? {
      PostedKeepsFutures(s, if ending.Raised? then Exception else Abort, s.nextSend, future);
    }
  }

  lemma DecidedResolves(f: Filter, e: SendEvent, future: nat)
    requires !e.SendMessage?
    ensures Resolutions(Decided(f, e), future) == Resolutions(f, future) + Found(FutureOf, future)(e)
  {
    SumAppend(f.written, FutureOf(e), Is(future));
  }

  lemma ResponseKeepsFutures(s: State, future: nat)
    requires Safe(s) && FuturesInv(s, future) && Enabled(s, ScheduledResponse)
    ensures FuturesInv(Apply(s, ScheduledResponse), future)
  {
    if s.level == 0 {
      if s.filter.phase.FinishHandshake? {
        DecidedResolves(s.filter, s.send.queue[0], future);
      } else {
        HandledAllResolves(s.filter, Queue(s.send), future);
      }
    }
  }

  lemma CleanupKeepsFutures(s: State, future: nat)
    requires FuturesInv(s, future)
    ensures FuturesInv(CleanedUp(s), future) && Queue(CleanedUp(s).send) == []
  {
    SumFoundAfter(s.filter.disconnected, Queue(s.send), FutureOf, future);
  }

  lemma StepKeepsFutures(s: State, a: Action, future: nat)
    requires Safe(s) && FuturesInv(s, future) && Enabled(s, a)
    ensures FuturesInv(Apply(s, a), future)
  {
    match a
    case Send(message) => CallKeepsFutures(s, message, future);
    case End(ending) => EndKeepsFutures(s, ending, future);
    case ScheduledResponse => ResponseKeepsFutures(s, future);
    case Destroy => CleanupKeepsFutures(s, future);
    case CleanUp(ended) =>
      CleanupKeepsFutures(s, future);
      OtherKeepsFutures(CleanedUp(s), CloseFinished(CleanedUp(s), ended), future);
    case _ =>
      SendsUntouched(s, a);
      OtherKeepsFutures(s, Apply(s, a), future);
  }

  /** The steps that touch no send event. */
  lemma SendsUntouched(s: State, a: Action)
    requires Enabled(s, a) && !a.Send? && !a.End? && !a.ScheduledResponse? && !a.Destroy? && !a.CleanUp?
    ensures var s' := Apply(s, a);
            && s'.filter.written == s.filter.written && s'.filter.disconnected == s.filter.disconnected
            && s'.send == s.send && s'.nextSend == s.nextSend && s'.said.bodies == s.said.bodies
  {
    match a
    case Decode(unit) => RoundUntouched(s, unit);
    case OnRead(data) => OnReadUntouched(s, data);
    case _ =>
  }

  lemma RoundUntouched(s: State, u: Unit)
    ensures var s' := Round(s, u);
            && s'.filter.written == s.filter.written && s'.filter.disconnected == s.filter.disconnected
            && s'.send == s.send && s'.nextSend == s.nextSend && s'.said == s.said
  {
  }

  lemma OnReadUntouched(s: State, data: Bytes)
    ensures var s' := AfterOnRead(s, data);
            && s'.filter.written == s.filter.written && s'.filter.disconnected == s.filter.disconnected
            && s'.send == s.send && s'.nextSend == s.nextSend && s'.said == s.said
  {
  }

  lemma OtherKeepsFutures(s: State, s': State, future: nat)
    requires FuturesInv(s, future)
    requires s'.filter.written == s.filter.written && s'.filter.disconnected == s.filter.disconnected
    requires s'.send == s.send && s'.nextSend == s.nextSend
    ensures FuturesInv(s', future)
  {
  }

  // ---------------------------------------------------------------- what was said

  // The sender, as the messages leave it.
  function SenderFor(x: Said): SendState {
    if x.closed then SendState.Closed else if x.accepted then SendState.Accepted else Started
  }

  function ClosingIn(e: SendEvent): seq<Frame> {
    match e
    case Close(frame) => [frame]
    case _ => []
  }

  /** The sender's state, its answer and its event are what the message says. */
  lemma CallAgrees(open: bool, x: Said, m: Message, future: nat)
    ensures var (sender, sent, answer) := Called(SenderFor(x), m, future);
            var x' := SaidWith(open, x, m);
            && sender == SenderFor(x') && answer == AnswerTo(x, m, future)
            && x'.bodies == x.bodies + (if open && sent.Some? then BodyIn(sent.value) else [])
            && x'.closings == x.closings + (if open && sent.Some? then ClosingIn(sent.value) else [])
            && x'.failed == x.failed && x'.returned == x.returned
            && (sent.Some? ==> !sent.value.Exception? && !sent.value.Abort?)
            && x'.first == (if open && x.first.None? && sent.Some? && !sent.value.SendMessage? then
                              Some(DecisionOf(sent.value))
                            else x.first)
  {
    assert x.bodies + [] == x.bodies && x.closings + [] == x.closings;
  }

  function DecisionOf(e: SendEvent): Decision {
    match e
    case Accept(_) => ToAccept
    case Close(_) => ToClose
    case Exception => ToFail
    case _ => ToEnd
  }

  /** What a close frame or an error in the client's stream amounts to. */
  predicate Ends(u: Unit, frame: Frame) {
    match u
    case PeerClose(Some(told), _) => frame == told
    case PeerClose(None, _) => frame.code == 1005 && frame.reason == []
    case Bad(code, _) => frame.code == code && frame.reason == []
    case _ => false
  }

  /** What the client is told when the application fails (section 7.4.1 of RFC 6455). */
  const FAILURE := Frame(1011, [])

  predicate SaidFrame(x: Said, frame: Frame) {
    frame in x.closings || (x.failed && frame == FAILURE)
  }

  /** The application closed with this frame, or failed, or the client's stream ended so. */
  predicate Origin(x: Said, found: Option<Unit>, frame: Frame) {
    SaidFrame(x, frame) || (found.Some? && Ends(found.value, frame))
  }

  predicate EffectSaid(e: Effect, x: Said, found: Option<Unit>) {
    match e
    case Respond101 => x.first == Some(ToAccept)
    case Respond403 => x.first == Some(ToClose)
    case Respond500 => x.first == Some(ToFail)
    case SendClose(frame) => Origin(x, found, frame)
    case CloseConnection(why) => why.AppEnded? ==> x.returned
    case SendFrame(_) => true
  }

  ghost predicate EffectsSaid(f: Filter, x: Said, found: Option<Unit>) {
    && (forall e | e in f.effects :: EffectSaid(e, x, found))
    && (f.closeFrame.Some? ==> Origin(x, found, f.closeFrame.value))
  }

  predicate EventSaid(e: SendEvent, x: Said) {
    match e
    case Close(frame) => frame in x.closings
    case Exception => x.failed
    case Abort => x.returned
    case _ => true
  }

  ghost predicate EventsSaid(events: seq<SendEvent>, x: Said) {
    forall e | e in events :: EventSaid(e, x)
  }

  // Everything that was said is shown, or still waits to be.
  ghost predicate Shown(f: Filter, events: seq<SendEvent>, x: Said) {
    && (forall frame | frame in x.closings :: SendClose(frame) in f.effects || Close(frame) in events)
    && (x.failed ==> SendClose(FAILURE) in f.effects || Exception in events)
    && (x.returned ==> CloseConnection(AppEnded) in f.effects || f.closeFrame.Some? || Abort in events)
  }

  // The first thing said decides the handshake.
  ghost predicate HandshakeSaid(f: Filter, send: Channel<SendEvent>, x: Said) {
    match f.phase
    case Open => x.first == Some(ToAccept)
    case Over =>
      (match x.first
       case Some(ToClose) => Respond403 in f.effects
       case Some(ToFail) => Respond500 in f.effects
       case Some(ToEnd) => CloseConnection(AppEnded) in f.effects
       case _ => false)
    case _ =>
      send.Open? ==> x.first == if send.queue == [] then None else Some(DecisionOf(send.queue[0]))
  }

  // Receives are told how the stream ended, or else what the application said.
  ghost predicate ToldSaid(s: State) {
    && (s.found.Some? ==> s.reading.Closing? || s.recv.Shut?)
    && (forall a | a in s.answers && a.event.Disconnect? ::
          if s.found.Some? then Ends(s.found.value, a.event.frame) else SaidFrame(s.said, a.event.frame))
  }

  ghost predicate SaidInv(s: State) {
    && s.sender == SenderFor(s.said)
    && EffectsSaid(s.filter, s.said, s.found)
    && EventsSaid(Queue(s.send), s.said)
    && HandshakeSaid(s.filter, s.send, s.said)
    && (s.send.Open? && !s.filter.phase.Over? ==> Shown(s.filter, s.send.queue, s.said))
    && ToldSaid(s)
  }

  lemma HandledKeepsSaid(f: Filter, e: SendEvent, x: Said, found: Option<Unit>)
    requires EffectsSaid(f, x, found) && EventSaid(e, x) && (f.phase.Open? ==> !e.Accept?)
    ensures EffectsSaid(Handled(f, e), x, found)
  {
  }

  lemma HandledShows(f: Filter, events: seq<SendEvent>, x: Said)
    requires Shown(f, events, x) && events != [] && f.phase.Open? && !events[0].Accept?
    ensures Shown(Handled(f, events[0]), events[1..], x)
  {
    var f' := Handled(f, events[0]);
    assert forall e | e in f.effects :: e in f'.effects;
    assert forall e | e in events :: e == events[0] || e in events[1..];
  }

  lemma {:induction false} HandledAllKeepsSaid(f: Filter, events: seq<SendEvent>, x: Said, found: Option<Unit>)
    requires EffectsSaid(f, x, found) && EventsSaid(events, x) && (f.phase.Open? ==> NoAccept(events))
    ensures EffectsSaid(HandledAll(f, events), x, found)
    ensures f.phase.Open? && Shown(f, events, x) ==> Shown(HandledAll(f, events), [], x)
    ensures !f.phase.Open? ==>
              HandledAll(f, events).effects == f.effects && HandledAll(f, events).closeFrame == f.closeFrame
    decreases |events|
  {
    if events != [] {
      assert events[0] in events;
      HandledKeepsSaid(f, events[0], x, found);
      if f.phase.Open? && Shown(f, events, x) {
        HandledShows(f, events, x);
      }
      HandledAllKeepsSaid(Handled(f, events[0]), events[1..], x, found);
    }
  }

  lemma DecidedKeepsSaid(f: Filter, queue: seq<SendEvent>, x: Said, found: Option<Unit>)
    requires EffectsSaid(f, x, found) && EventsSaid(queue, x) && queue != [] && !queue[0].SendMessage?
    requires f.phase.FinishHandshake? && x.first == Some(DecisionOf(queue[0])) && Shown(f, queue, x)
    ensures var f' := Decided(f, queue[0]);
            && EffectsSaid(f', x, found) && EventsSaid(queue[1..], x)
            && HandshakeSaid(f', Channel.Open(queue[1..]), x)
            && (!f'.phase.Over? ==> Shown(f', queue[1..], x))
  {
    var f' := Decided(f, queue[0]);
    assert queue[0] in queue;
    assert f'.effects == f.effects + [f'.effects[|f.effects|]];
    assert forall e | e in f.effects :: e in f'.effects;
    assert f'.effects[|f.effects|] in f'.effects;
    assert forall e | e in queue :: e == queue[0] || e in queue[1..];
  }

  lemma ResponseKeepsSaid(s: State)
    requires Safe(s) && SaidInv(s) && Enabled(s, ScheduledResponse)
    ensures SaidInv(Apply(s, ScheduledResponse))
  {
    if s.level == 0 {
      if s.filter.phase.FinishHandshake? {
        DecidedKeepsSaid(s.filter, s.send.queue, s.said, s.found);
      } else {
        HandledAllIsSafe(s.filter, Queue(s.send));
        HandledAllKeepsSaid(s.filter, Queue(s.send), s.said, s.found);
        BatchKeepsHandshake(s);
      }
    }
  }

  lemma BatchKeepsHandshake(s: State)
    requires Safe(s) && SaidInv(s) && !s.filter.phase.FinishHandshake?
    ensures HandshakeSaid(HandledAll(s.filter, Queue(s.send)), Drained(s.send), s.said)
    ensures s.send.Open? && !s.filter.phase.Over? ==>
              Shown(HandledAll(s.filter, Queue(s.send)), Queue(Drained(s.send)), s.said)
  {
    HandledAllIsSafe(s.filter, Queue(s.send));
    HandledAllKeepsSaid(s.filter, Queue(s.send), s.said, s.found);
  }

  /** More was said; what was shown before still stands. */
  ghost predicate Adds(x: Said, x': Said) {
    && x.closings <= x'.closings && (x.failed ==> x'.failed) && (x.returned ==> x'.returned)
    && (x.first.Some? ==> x'.first == x.first)
  }

  lemma MoreSaid(f: Filter, events: seq<SendEvent>, x: Said, x': Said, found: Option<Unit>)
    requires EffectsSaid(f, x, found) && EventsSaid(events, x) && Adds(x, x')
    ensures EffectsSaid(f, x', found) && EventsSaid(events, x')
  {
    assert forall frame | frame in x.closings :: frame in x'.closings;
    assert forall e | e in f.effects && EffectSaid(e, x, found) :: EffectSaid(e, x', found);
    assert forall e | e in events && EventSaid(e, x) :: EventSaid(e, x');
  }

  /** What posting `e` adds to what was said. */
  ghost predicate Says(open: bool, e: SendEvent, x: Said, x': Said) {
    && x'.closings == x.closings + (if open then ClosingIn(e) else [])
    && x'.failed == (x.failed || (open && e.Exception?)) && x'.returned == (x.returned || (open && e.Abort?))
    && x'.first == (if open && x.first.None? && !e.SendMessage? then Some(DecisionOf(e)) else x.first)
  }

  lemma PostedShows(f: Filter, events: seq<SendEvent>, e: SendEvent, x: Said, x': Said)
    requires Shown(f, events, x) && Says(true, e, x, x')
    ensures Shown(f, events + [e], x')
  {
    assert e in events + [e];
    assert forall e0 | e0 in events :: e0 in events + [e];
  }

  lemma PostedKeepsSaid(s: State, e: SendEvent, sender: SendState, nextSend: nat, x: Said)
    requires Safe(s) && SaidInv(s) && Enabled(s, Receive) && Says(s.send.Open?, e, s.said, x) && sender == SenderFor(x)
    requires e.SendMessage? ==> s.sender.Accepted?
    ensures SaidInv(Posted(s.(sender := sender, nextSend := nextSend, said := x), e))
  {
    SaysMore(s.send.Open?, e, s.said, x);
    MoreSaid(s.filter, Queue(s.send), s.said, x, s.found);
    PostedTells(s, x);
    if s.send.Open? {
      PostedEvent(s.send.queue, e, s.said, x);
      PostedKeepsHandshake(s, e, x);
      if !s.filter.phase.Over? {
        PostedShows(s.filter, s.send.queue, e, s.said, x);
      }
    }
  }

  lemma SaysMore(open: bool, e: SendEvent, x: Said, x': Said)
    requires Says(open, e, x, x')
    ensures Adds(x, x') && (!open ==> x'.closings == x.closings)
  {
  }

  /** The first event that decides is the first in the queue. */
  lemma PostedKeepsHandshake(s: State, e: SendEvent, x: Said)
    requires Safe(s) && Enabled(s, Receive) && s.send.Open? && HandshakeSaid(s.filter, s.send, s.said)
    requires Says(true, e, s.said, x) && (e.SendMessage? ==> s.sender.Accepted?)
    ensures HandshakeSaid(s.filter, Sent(s.send, e), x)
  {
  }

  lemma PostedEvent(queue: seq<SendEvent>, e: SendEvent, x: Said, x': Said)
    requires EventsSaid(queue, x') && Says(true, e, x, x')
    ensures EventsSaid(queue + [e], x')
  {
    assert EventSaid(e, x');
  }

  lemma PostedTells(s: State, x: Said)
    requires ToldSaid(s) && Adds(s.said, x)
    ensures ToldSaid(s.(said := x))
  {
    assert forall frame | frame in s.said.closings :: frame in x.closings;
  }

  lemma CallKeepsSaid(s: State, m: Message)
    requires Safe(s) && SaidInv(s) && Enabled(s, Receive)
    ensures SaidInv(AfterCall(s, m))
  {
    var (sender, sent, answer) := Called(s.sender, m, s.nextSend);
    var s' := AfterCall(s, m);
    CallAgrees(s.send.Open?, s.said, m, s.nextSend);
    if sent.Some? {
      PostedKeepsSaid(s, sent.value, sender, s'.nextSend, s'.said);
    } else {
      assert s.said.closings + [] == s.said.closings;
      MoreSaid(s.filter, Queue(s.send), s.said, s'.said, s.found);
    }
  }

  lemma EndKeepsSaid(s: State, ending: Ending)
    requires Safe(s) && SaidInv(s) && Enabled(s, Receive)
    ensures SaidInv(AfterEnd(s, ending))
  {
    if !ending.ClientGone? {
      assert s.said.closings + [] == s.said.closings;
      PostedKeepsSaid(s, if ending.Raised? then Exception else Abort, s.sender, s.nextSend,
                      SaidAtEnd(s.send.Open?, s.said, ending));
    }
  }

  /** Steps that say nothing and show nothing of it. */
  lemma OtherKeepsSaid(s: State, s': State)
    requires SaidInv(s) && s'.said == s.said && s'.sender == s.sender && (s'.send == s.send || s'.send.Shut?)
    requires s'.found == s.found && s'.filter.closeFrame == s.filter.closeFrame
    requires s'.filter.effects == s.filter.effects
             || exists why: Why :: !why.AppEnded? && s'.filter.effects == s.filter.effects + [CloseConnection(why)]
    requires s'.filter.phase == s.filter.phase
             || (s.filter.phase.StartHandshake? && (s'.filter.phase.NotWebSocket? || s'.filter.phase.FinishHandshake?))
    requires ToldSaid(s')
    ensures SaidInv(s')
  {
    assert forall e | e in s.filter.effects :: e in s'.filter.effects;
  }

  lemma DisconnectingTells(s: State, frame: Frame)
    requires ToldSaid(s) && (if s.found.Some? then Ends(s.found.value, frame) else SaidFrame(s.said, frame))
    ensures ToldSaid(Disconnecting(s, frame))
  {
  }

  /** A close frame known when the loop starts is the application's. */
  lemma ReadStartKeepsSaid(s: State)
    requires Safe(s) && SaidInv(s) && s.reading.Idle?
    ensures SaidInv(ReadStarts(s))
  {
    if s.filter.closeFrame.Some? {
      ReadStartTells(s);
      OtherKeepsSaid(s, ReadStarts(s));
    } else {
      OtherKeepsSaid(s, ReadStarts(s));
    }
  }

  lemma ReadStartTells(s: State)
    requires ToldSaid(s) && EffectsSaid(s.filter, s.said, s.found) && s.reading.Idle? && s.filter.closeFrame.Some?
    ensures ToldSaid(ReadStarts(s))
  {
    if s.found.None? {
      DisconnectingTells(s, s.filter.closeFrame.value);
    } else {
      assert Disconnects([], s.filter.closeFrame.value) == [];
      assert s.answers + [] == s.answers;
    }
  }

  lemma OnReadKeepsSaid(s: State, data: Bytes)
    requires Safe(s) && SaidInv(s) && s.reading.Idle? && !s.filter.phase.StartHandshake?
    ensures SaidInv(AfterOnRead(s, data))
  {
    var s1 := s.(input := Arrived(s.input, data));
    OtherKeepsSaid(s, s1);
    if s.filter.phase.Open? {
      ReadStartKeepsSaid(s1);
    } else {
      OtherKeepsSaid(s, AfterOnRead(s, data));
    }
  }

  lemma RequestKeepsSaid(s: State)
    requires Safe(s) && SaidInv(s) && Enabled(s, ScheduledRequest)
    ensures SaidInv(Apply(s, ScheduledRequest))
  {
    var s1 := s.(reqCommits := s.reqCommits - 1);
    OtherKeepsSaid(s, s1);
    if s.filter.phase.Open? {
      ReadStartKeepsSaid(s1);
    } else {
      OtherKeepsSaid(s, Apply(s, ScheduledRequest));
    }
  }

  lemma FoundTells(s: State, u: Unit)
    requires Safe(s) && ToldSaid(s) && ReceivesInv(s) && s.reading.Decoding? && (u.PeerClose? || u.Bad?)
    ensures ToldSaid(Round(s, u))
  {
    assert forall a | a in s.answers :: !a.event.Disconnect?;
  }

  lemma RoundKeepsSaid(s: State, u: Unit)
    requires Safe(s) && SaidInv(s) && ReceivesInv(s) && s.reading.Decoding?
    ensures SaidInv(Round(s, u))
  {
    var s' := Round(s, u);
    if u.PeerClose? || u.Bad? {
      FoundTells(s, u);
      FoundKeepsEffects(s.filter, s.said, s.found, u);
      assert forall e | e in s.filter.effects :: e in s'.filter.effects;
    } else {
      OtherKeepsSaid(s, s');
    }
  }

  lemma FoundKeepsEffects(f: Filter, x: Said, found: Option<Unit>, u: Unit)
    requires EffectsSaid(f, x, found) && found.None? && (u.PeerClose? || u.Bad?)
    ensures var frame := CloseFrameOf(u);
            EffectsSaid(f.(closeFrame := Some(frame), effects := f.effects + [SendClose(frame)]), x, Some(u))
  {
    assert forall e | e in f.effects && EffectSaid(e, x, found) :: EffectSaid(e, x, Some(u));
  }

  lemma CloseKeepsSaid(s: State, ended: bool)
    requires SaidInv(s)
    ensures SaidInv(CloseFinished(CleanedUp(s), ended))
  {
    var s' := CloseFinished(CleanedUp(s), ended);
    assert s.filter.effects + [] == s.filter.effects;
    if ended {
      assert s'.filter.effects == s.filter.effects + [CloseConnection(Finished)];
    }
    OtherKeepsSaid(s, s');
  }

  lemma HandshakeKeepsSaid(s: State, outcome: Handshake)
    requires SaidInv(s) && s.filter.phase.StartHandshake?
    ensures SaidInv(AfterHandshake(s, outcome))
  {
    var s' := AfterHandshake(s, outcome);
    if outcome.Junk? {
      assert s'.filter.effects == s.filter.effects + [CloseConnection(BadHandshake)];
    }
    OtherKeepsSaid(s, s');
  }

  lemma StepKeepsSaid(s: State, a: Action)
    requires Safe(s) && SaidInv(s) && ReceivesInv(s) && Enabled(s, a)
    ensures SaidInv(Apply(s, a))
  {
    match a
    case Send(message) => CallKeepsSaid(s, message);
    case End(ending) => EndKeepsSaid(s, ending);
    case ReadHandshake(outcome) => HandshakeKeepsSaid(s, outcome);
    case OnRead(data) => OnReadKeepsSaid(s, data);
    case ScheduledRequest => RequestKeepsSaid(s);
    case ScheduledResponse => ResponseKeepsSaid(s);
    case Decode(unit) => RoundKeepsSaid(s, unit);
    case CleanUp(ended) => CloseKeepsSaid(s, ended);
    case _ => OtherKeepsSaid(s, Apply(s, a));
  }
}
