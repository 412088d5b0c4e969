/** The WebSocket handshake and send path: the application's send callable, its completion
    handler, the two bridges, the scheduled callbacks and the filter's state machine. The
    filter takes values out of bridges and matches on events without handling the cases
    it believes impossible; here those cases set `panicked`. */
module WebSockets {
  import opened Basics
  import opened EventBridges
  import opened WebSocketReceives

  const ERROR_CODE: nat := 1011

  datatype SendEvent =
    | Accept(future: nat)
    | SendMessage(body: Bytes, future: nat)
    | Close(frame: Frame)
    | Exception
    | Abort

  // ---------------------------------------------------------------- the send callable

  /** A message as the application sent it; `valid` says its fields can be converted. */
  datatype Message =
    | Untyped
    | AcceptMessage(valid: bool)
    | DataMessage(valid: bool, body: Bytes)
    | CloseMessage(codeAllowed: bool, reasonValid: bool, frame: Frame)
    | OtherMessage

  datatype SendState = Started | Accepted | Closed

  datatype Outcome = Done | Waits(future: nat) | Disconnected | Unexpected | Invalid

  /** What one call leaves behind, puts on the bridge and answers. */
  function Called(state: SendState, m: Message, future: nat): (SendState, Option<SendEvent>, Outcome) {
    if state.Closed? then (state, None, Disconnected)
    else
      match m
      case Untyped => (state, None, Invalid)
      case AcceptMessage(valid) =>
        if state.Accepted? then (state, None, Unexpected)
        else if !valid then (state, None, Invalid)
        else (SendState.Accepted, Some(Accept(future)), Waits(future))
      case DataMessage(valid, body) =>
        if state.Started? then (state, None, Unexpected)
        else if !valid then (state, None, Invalid)
        else (state, Some(SendMessage(body, future)), Waits(future))
      case CloseMessage(codeAllowed, reasonValid, frame) =>
        if !codeAllowed then (state, None, Invalid)
        else if !reasonValid then (SendState.Closed, None, Invalid)
        else (SendState.Closed, Some(Close(frame)), Done)
      case OtherMessage => (state, None, Unexpected)
  }

  class SendCallable {
    var state: SendState
    const bridge: EventBridge<SendEvent>
    var commits: nat

    ghost predicate Valid()
      reads this, bridge
    {
      bridge.Valid()
    }

    constructor (bridge: EventBridge<SendEvent>)
      requires bridge.Valid()
      ensures Valid() && this.bridge == bridge && state == Started && commits == 0
    {
      this.bridge := bridge;
      state, commits := Started, 0;
    }

    method SendAndCommit(event: SendEvent)
      requires Valid()
      modifies this`commits, bridge
      ensures Valid() && bridge.View() == Sent(old(bridge.View()), event)
      ensures commits == old(commits) + (if old(bridge.View()).Open? then 1 else 0)
    {
      var r := bridge.Send(event);
      if r.Accepted? {
        commits := commits + 1;
      }
    }

    method Call(m: Message, future: nat) returns (answer: Outcome)
      requires Valid()
      modifies this, bridge
      ensures Valid()
      ensures var (s, sent, a) := Called(old(state), m, future);
              && state == s && answer == a
              && bridge.View() == (if sent.Some? then Sent(old(bridge.View()), sent.value)
                                   else old(bridge.View()))
              && commits == old(commits) + (if sent.Some? && old(bridge.View()).Open? then 1 else 0)
    {
      if state.Closed? {
        return Disconnected;
      }
      match m {
        case Untyped => answer := Invalid;
        case AcceptMessage(valid) =>
          if state.Accepted? {
            return Unexpected;
          }
          if !valid {
            return Invalid;
          }
          state := SendState.Accepted;
          SendAndCommit(Accept(future));
          answer := Waits(future);
        case DataMessage(valid, body) =>
          if state.Started? {
            return Unexpected;
          }
          if !valid {
            return Invalid;
          }
          SendAndCommit(SendMessage(body, future));
          answer := Waits(future);
        case CloseMessage(codeAllowed, reasonValid, frame) =>
          if !codeAllowed {
            return Invalid;
          }
          state := SendState.Closed;
          if !reasonValid {
            return Invalid;
          }
          SendAndCommit(Close(frame));
          answer := Done;
        case OtherMessage => answer := Unexpected;
      }
    }
  }

  // ---------------------------------------------------------------- the filter

  datatype Phase = StartHandshake | FinishHandshake | Open | NotWebSocket | Over

  /** Why a connection is closed: the application ended without a close, there was more or other
      than a handshake, or the closing handshake was done. */
  datatype Why = AppEnded | BadHandshake | Finished

  /** What the filter does to the connection. */
  datatype Effect =
    | Respond101 | Respond403 | Respond500
    | SendFrame(body: Bytes) | SendClose(frame: Frame) | CloseConnection(why: Why)

  datatype Filter = Filter(
    phase: Phase, closeFrame: Option<Frame>, effects: seq<Effect>,
    written: seq<nat>,      // send futures resolved by the filter
    disconnected: seq<nat>, // send futures failed by being dropped
    panicked: bool)

  function FutureOf(e: SendEvent): seq<nat> {
    match e
    case Accept(future) => [future]
    case SendMessage(_, future) => [future]
    case _ => []
  }

  function Dropped(f: Filter, e: SendEvent): Filter {
    f.(disconnected := f.disconnected + FutureOf(e))
  }

  /** The first event, which decides the handshake. */
  function Decided(f: Filter, e: SendEvent): Filter {
    match e
    case Close(frame) =>
      f.(phase := Over, effects := f.effects + [Respond403], closeFrame := Some(frame))
    case Accept(future) =>
      f.(phase := Phase.Open, effects := f.effects + [Respond101], written := f.written + [future])
    case Abort => f.(phase := Over, effects := f.effects + [CloseConnection(AppEnded)])
    case Exception =>
      f.(phase := Over, effects := f.effects + [Respond500], closeFrame := Some(Frame(ERROR_CODE, [])))
    case SendMessage(_, _) => f.(panicked := true)
  }

  /** A later event. */
  function Handled(f: Filter, e: SendEvent): Filter {
    if !f.phase.Open? then Dropped(f, e)
    else
      match e
      case SendMessage(body, future) =>
        if f.closeFrame.Some? then Dropped(f, e)
        else f.(effects := f.effects + [SendFrame(body)], written := f.written + [future])
      case Close(frame) => f.(effects := f.effects + [SendClose(frame)], closeFrame := Some(frame))
      case Exception =>
        f.(effects := f.effects + [SendClose(Frame(ERROR_CODE, []))],
           closeFrame := Some(Frame(ERROR_CODE, [])))
      case Abort => if f.closeFrame.None? then f.(effects := f.effects + [CloseConnection(AppEnded)]) else f
      case Accept(_) => f.(panicked := true)
  }

  function HandledAll(f: Filter, events: seq<SendEvent>): Filter
    decreases |events|
  {
    if events == [] then f else HandledAll(Handled(f, events[0]), events[1..])
  }

  /** When the send part of the filter cannot hit an impossible case. */
  predicate SendReady(f: Filter, waiting: seq<SendEvent>) {
    && (f.phase.FinishHandshake? ==> waiting != [] && !waiting[0].SendMessage?)
    && (f.phase.Open? ==> forall e :: e in waiting ==> !e.Accept?)
  }

  class SendHandler {
    var phase: Phase
    var closeFrame: Option<Frame>
    const bridge: EventBridge<SendEvent>
    var requestCommits: nat
    var effects: seq<Effect>
    var written: seq<nat>
    var disconnected: seq<nat>

    ghost predicate Valid()
      reads this, bridge
    {
      bridge.Valid()
    }

    ghost function View(): Filter
      reads this
    {
      Filter(phase, closeFrame, effects, written, disconnected, false)
    }

    constructor (bridge: EventBridge<SendEvent>)
      requires bridge.Valid()
      ensures Valid() && this.bridge == bridge && requestCommits == 0
      ensures View() == Filter(StartHandshake, None, [], [], [], false)
    {
      this.bridge := bridge;
      phase, closeFrame, requestCommits := StartHandshake, None, 0;
      effects, written, disconnected := [], [], [];
    }

    method ProcessSendEvents()
      requires Valid() && SendReady(View(), Queue(bridge.View()))
      modifies this`phase, this`closeFrame, this`requestCommits, this`effects, this`written,
               this`disconnected, bridge
      ensures Valid()
      ensures old(phase).FinishHandshake? ==>
                && View() == Decided(old(View()), Queue(old(bridge.View()))[0])
                && bridge.View() == FirstTaken(old(bridge.View()))
      ensures !old(phase).FinishHandshake? ==>
                && View() == HandledAll(old(View()), Queue(old(bridge.View())))
                && bridge.View() == Drained(old(bridge.View()))
      ensures requestCommits ==
              old(requestCommits) + (if old(phase).FinishHandshake? && phase.Open? then 1 else 0)
    {
      if phase.FinishHandshake? {
        var event := bridge.Get();
        phase := Over;
        match event.value {
          case Close(frame) =>
            effects := effects + [Respond403];
            closeFrame := Some(frame);
          case Accept(future) =>
            effects := effects + [Respond101];
            phase := Phase.Open;
            requestCommits := requestCommits + 1;
            written := written + [future];
          case Abort =>
            effects := effects + [CloseConnection(AppEnded)];
          case Exception =>
            effects := effects + [Respond500];
            closeFrame := Some(Frame(ERROR_CODE, []));
        }
      } else {
        var events := bridge.Drain();
        for k := 0 to |events|
          invariant Valid() && bridge.View() == Drained(old(bridge.View()))
          invariant requestCommits == old(requestCommits) && phase == old(phase)
          invariant HandledAll(View(), events[k..]) == HandledAll(old(View()), events)
        {
          assert events[k..][1..] == events[k + 1..];
          HandleEvent(events[k]);
        }
        assert events[|events|..] == [];
      }
    }

    method HandleEvent(event: SendEvent)
      requires phase.Open? ==> !event.Accept?
      modifies this`closeFrame, this`effects, this`written, this`disconnected
      ensures View() == Handled(old(View()), event)
    {
      if !phase.Open? {
        disconnected := disconnected + FutureOf(event);
        return;
      }
      match event {
        case SendMessage(body, future) =>
          if closeFrame.Some? {
            disconnected := disconnected + FutureOf(event);
            return;
          }
          effects := effects + [SendFrame(body)];
          written := written + [future];
        case Close(frame) =>
          effects := effects + [SendClose(frame)];
          closeFrame := Some(frame);
        case Exception =>
          effects := effects + [SendClose(Frame(ERROR_CODE, []))];
          closeFrame := Some(Frame(ERROR_CODE, []));
        case Abort =>
          if closeFrame.None? {
            effects := effects + [CloseConnection(AppEnded)];
          }
      }
    }
  }
}
