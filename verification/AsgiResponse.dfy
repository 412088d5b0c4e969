/** The ASGI response path: the send callable checks the application's messages and feeds the
    send bridge; the filter turns its events into Envoy calls and resolves their futures. */
module AsgiResponses {
  import opened Basics
  import opened HttpCalls
  import opened EventBridges
  import Delivery

  /** A message as the application sent it. An invalid one has a field of the wrong type, and
      trailers of `None` are headers that cannot be converted. */
  datatype Message =
    | Untyped
    | StartMessage(valid: bool, status: nat, headers: seq<Header>, trailers: bool)
    | BodyMessage(valid: bool, body: Bytes, moreBody: bool)
    | TrailersMessage(valid: bool, trailerHeaders: Option<seq<Header>>, moreTrailers: bool)
    | OtherMessage

  datatype StartEvent = StartEvent(status: nat, headers: seq<Header>, trailers: bool)

  /** The future is resolved when the body is written; only a last body has none. */
  datatype BodyEvent = BodyEvent(body: Bytes, future: Option<nat>)

  datatype SendEvent =
    | StartWith(start: StartEvent, first: BodyEvent)
    | Body(body: BodyEvent)
    | TrailersPart(headers: seq<Header>, moreTrailers: bool)
    | Exception

  // ---------------------------------------------------------------- the send callable

  datatype Next = ExpectStart | ExpectBody(trailers: bool) | ExpectTrailers | Complete

  datatype Sender = Sender(next: Next, responseStart: Option<StartEvent>, closed: bool)

  const FRESH_SENDER := Sender(ExpectStart, None, false)

  datatype Answer = Done | Waits(future: nat) | Disconnected | Unexpected | Invalid

  /** What one call leaves behind, puts on the bridge and answers. `open` tells whether the
      bridge takes events, `future` names the future the call would create. */
  function Called(s: Sender, accepted: bool, m: Message, open: bool, future: nat)
    : (Sender, Option<SendEvent>, Answer)
  {
    if s.closed then (s, None, Disconnected)
    else if m.Untyped? then (s, None, Invalid)
    else
      match s.next
      case ExpectStart =>
        if !m.StartMessage? then (s, None, Unexpected)
        else if !m.valid then (s, None, Invalid)
        else
          (s.(next := ExpectBody(m.trailers),
              responseStart := Some(StartEvent(m.status, m.headers, m.trailers && accepted))), None, Done)
      case ExpectBody(trailers) =>
        if !m.BodyMessage? then (s, None, Unexpected)
        else if !m.valid then (s, None, Invalid)
        else
          var next := if m.moreBody then s.next else if trailers then ExpectTrailers else Complete;
          var body := BodyEvent(m.body, if m.moreBody then Some(future) else None);
          (Sender(next, None, !open),
           Some(if s.responseStart.Some? then StartWith(s.responseStart.value, body) else Body(body)),
           if m.moreBody then Waits(future) else Done)
      case ExpectTrailers =>
        if !m.TrailersMessage? then (s, None, Unexpected)
        else if !m.valid then (s, None, Invalid)
        else
          var s' := s.(next := if m.moreTrailers then ExpectTrailers else Complete);
          if !accepted then (s', None, Done)
          else if m.trailerHeaders.None? then (s', None, Invalid)
          else
            (s'.(closed := !open), Some(TrailersPart(m.trailerHeaders.value, m.moreTrailers)),
             if open then Done else Disconnected)
      case Complete => (s, None, Unexpected)
  }

  class SendCallable {
    var next: Next
    var responseStart: Option<StartEvent>
    const trailersAccepted: bool
    var closed: bool
    const bridge: EventBridge<SendEvent>
    var commits: nat

    ghost predicate Valid()
      reads this, bridge
    {
      bridge.Valid()
    }

    ghost function View(): Sender
      reads this
    {
      Sender(next, responseStart, closed)
    }

    constructor (bridge: EventBridge<SendEvent>, trailersAccepted: bool)
      requires bridge.Valid()
      ensures Valid() && View() == FRESH_SENDER && commits == 0
      ensures this.bridge == bridge && this.trailersAccepted == trailersAccepted
    {
      this.bridge, this.trailersAccepted := bridge, trailersAccepted;
      next, responseStart, closed, commits := ExpectStart, None, false, 0;
    }

    method Call(m: Message, future: nat) returns (answer: Answer)
      requires Valid()
      modifies this, bridge
      ensures Valid()
      ensures var open := old(bridge.View()).Open?;
              var (s, sent, a) := Called(old(View()), trailersAccepted, m, open, future);
              && View() == s && answer == a
              && bridge.View() == (if sent.Some? then Sent(old(bridge.View()), sent.value)
                                   else old(bridge.View()))
              && commits == old(commits) + (if sent.Some? && open then 1 else 0)
    {
      if closed {
        return Disconnected;
      }
      if m.Untyped? {
        return Invalid;
      }
      match next {
        case ExpectStart =>
          if !m.StartMessage? {
            return Unexpected;
          }
          if !m.valid {
            return Invalid;
          }
          next := ExpectBody(m.trailers);
          responseStart := Some(StartEvent(m.status, m.headers, m.trailers && trailersAccepted));
          answer := Done;
        case ExpectBody(trailers) =>
          if !m.BodyMessage? {
            return Unexpected;
          }
          if !m.valid {
            return Invalid;
          }
          if !m.moreBody {
            next := if trailers then ExpectTrailers else Complete;
          }
          answer := if m.moreBody then Waits(future) else Done;
          var body := BodyEvent(m.body, if m.moreBody then Some(future) else None);
          var start := responseStart;
          responseStart := None;
          var sent;
          if start.Some? {
            sent := bridge.Send(StartWith(start.value, body));
          } else {
            sent := bridge.Send(Body(body));
          }
          if sent.Accepted? {
            commits := commits + 1;
          } else {
            closed := true;
          }
        case ExpectTrailers =>
          if !m.TrailersMessage? {
            return Unexpected;
          }
          if !m.valid {
            return Invalid;
          }
          if !m.moreTrailers {
            next := Complete;
          }
          if trailersAccepted {
            if m.trailerHeaders.None? {
              return Invalid;
            }
            var sent := bridge.Send(TrailersPart(m.trailerHeaders.value, m.moreTrailers));
            if sent.Accepted? {
              commits := commits + 1;
            } else {
              closed := true;
              return Disconnected;
            }
          }
          answer := Done;
        case Complete =>
          answer := Unexpected;
      }
    }
  }

  // ---------------------------------------------------------------- the filter

  /** The trailers collected so far, if the response will have any, and the calls made. */
  datatype Output = Output(trailers: Option<seq<Header>>, calls: seq<Call>)

  function StartCalls(start: StartEvent, body: Bytes, end: bool): seq<Call> {
    if end && body == [] then [Headers(start.status, start.headers, true)]
    else [Headers(start.status, start.headers, false), Data(body, end)]
  }

  /** The collected trailers after one event. */
  function NextTrailers(trailers: Option<seq<Header>>, e: SendEvent): Option<seq<Header>> {
    match e
    case StartWith(start, _) => if start.trailers then Some([]) else trailers
    case TrailersPart(headers, moreTrailers) =>
      if trailers.Some? && moreTrailers then Some(trailers.value + headers) else None
    case _ => trailers
  }

  /** The calls for one event, given the trailers collected before it. */
  function CallsFor(trailers: Option<seq<Header>>, e: SendEvent): seq<Call> {
    match e
    case StartWith(start, first) =>
      StartCalls(start, first.body, first.future.None? && NextTrailers(trailers, e).None?)
    case Body(body) => [Data(body.body, body.future.None? && trailers.None?)]
    case TrailersPart(headers, moreTrailers) =>
      if trailers.Some? && !moreTrailers then [Trailers(trailers.value + headers)] else []
    case Exception => [Reply500]
  }

  function Rendered(o: Output, e: SendEvent): Output {
    Output(NextTrailers(o.trailers, e), o.calls + CallsFor(o.trailers, e))
  }

  function RenderedAll(o: Output, events: seq<SendEvent>): Output {
    if events == [] then o
    else Rendered(RenderedAll(o, events[..|events| - 1]), events[|events| - 1])
  }

  lemma RenderedNext(o: Output, events: seq<SendEvent>, k: nat)
    requires k < |events|
    ensures RenderedAll(o, events[..k + 1]) == Rendered(RenderedAll(o, events[..k]), events[k])
  {
    assert events[..k + 1][..k] == events[..k];
  }

  /** The future of a body that was not the last. */
  function FutureOf(e: SendEvent): seq<nat> {
    match e
    case StartWith(_, first) => if first.future.Some? then [first.future.value] else []
    case Body(body) => if body.future.Some? then [body.future.value] else []
    case _ => []
  }

  lemma FuturesNext(before: seq<nat>, waiting: seq<SendEvent>, k: nat)
    requires k < |waiting|
    ensures before + FlatMap(waiting[..k + 1], FutureOf) ==
            before + FlatMap(waiting[..k], FutureOf) + FutureOf(waiting[k])
  {
    assert waiting[..k + 1] == waiting[..k] + [waiting[k]];
    FlatMapPush(waiting[..k], FutureOf, waiting[k]);
  }

  class ResponseFilter {
    const bridge: EventBridge<SendEvent>
    var responseTrailers: Option<seq<Header>>
    var responseClosed: bool
    var watermarkLevel: nat
    var commits: nat
    var calls: seq<Call>
    var written: seq<nat>       // futures resolved by the filter
    var disconnected: seq<nat>  // futures failed by being dropped

    ghost predicate Valid()
      reads this, bridge
    {
      bridge.Valid()
    }

    ghost function View(): Output
      reads this
    {
      Output(responseTrailers, calls)
    }

    constructor (bridge: EventBridge<SendEvent>)
      requires bridge.Valid()
      ensures Valid() && this.bridge == bridge && View() == Output(None, [])
      ensures written == [] && disconnected == [] && !responseClosed && watermarkLevel == 0 && commits == 0
    {
      this.bridge := bridge;
      responseTrailers, responseClosed, watermarkLevel, commits := None, false, 0, 0;
      calls, written, disconnected := [], [], [];
    }

    method HandleEvent(event: SendEvent)
      modifies this`responseTrailers, this`calls, this`written
      ensures View() == Rendered(old(View()), event)
      ensures written == old(written) + FutureOf(event)
    {
      match event {
        case StartWith(start, first) =>
          if start.trailers {
            responseTrailers := Some([]);
          }
          var endStream := first.future.None? && responseTrailers.None?;
          if first.future.Some? {
            written := written + [first.future.value];
          }
          if endStream {
            if first.body == [] {
              calls := calls + [Headers(start.status, start.headers, true)];
            } else {
              calls := calls + [Headers(start.status, start.headers, false), Data(first.body, true)];
            }
          } else {
            calls := calls + [Headers(start.status, start.headers, false), Data(first.body, false)];
          }
        case Body(body) =>
          var endStream := body.future.None? && responseTrailers.None?;
          if body.future.Some? {
            written := written + [body.future.value];
          }
          calls := calls + [Data(body.body, endStream)];
        case TrailersPart(headers, moreTrailers) =>
          var trailers := responseTrailers;
          responseTrailers := None;
          if trailers.None? {
            return;
          }
          var all := trailers.value + headers;
          if moreTrailers {
            responseTrailers := Some(all);
            return;
          }
          calls := calls + [Trailers(all)];
        case Exception =>
          calls := calls + [Reply500];
      }
    }

    method HandleEvents(events: seq<SendEvent>)
      modifies this`responseTrailers, this`calls, this`written
      ensures View() == RenderedAll(old(View()), events)
      ensures written == old(written) + FlatMap(events, FutureOf)
    {
      ghost var before, resolved := View(), written;
      for k := 0 to |events|
        invariant View() == RenderedAll(before, events[..k])
        invariant written == resolved + FlatMap(events[..k], FutureOf)
      {
        RenderedNext(before, events, k);
        FuturesNext(resolved, events, k);
        HandleEvent(events[k]);
      }
      assert events[..|events|] == events;
    }

    /** A scheduled response callback, with nothing running beside it. */
    method OnScheduledResponse()
      requires Valid()
      modifies this`responseTrailers, this`calls, this`written, bridge
      ensures Valid()
      ensures var events := if watermarkLevel > 0 then [] else Queue(old(bridge.View()));
              && View() == RenderedAll(old(View()), events)
              && written == old(written) + FlatMap(events, FutureOf)
      ensures bridge.View() == if watermarkLevel > 0 then old(bridge.View()) else Drained(old(bridge.View()))
    {
      if watermarkLevel == 0 {
        var events := bridge.Drain();
        HandleEvents(events);
      }
    }

    method OnAboveWatermark()
      modifies this`watermarkLevel
      ensures watermarkLevel == old(watermarkLevel) + 1
    {
      watermarkLevel := watermarkLevel + 1;
    }

    method OnBelowWatermark()
      requires watermarkLevel > 0
      modifies this`watermarkLevel, this`commits
      ensures watermarkLevel == old(watermarkLevel) - 1
      ensures commits == old(commits) + (if watermarkLevel == 0 then 1 else 0)
    {
      watermarkLevel := watermarkLevel - 1;
      if watermarkLevel == 0 {
        commits := commits + 1;
      }
    }

    /** Closing the bridge drops the waiting events, and with them their futures. */
    method OnStreamComplete()
      requires Valid()
      modifies this`responseClosed, this`disconnected, bridge
      ensures Valid() && responseClosed && bridge.View() == Shut
      ensures disconnected == old(disconnected) + FlatMap(Queue(old(bridge.View())), FutureOf)
    {
      responseClosed := true;
      var waiting := bridge.Close();
      for k := 0 to |waiting|
        invariant Valid() && bridge.View() == Shut && responseClosed
        invariant disconnected == old(disconnected) + FlatMap(waiting[..k], FutureOf)
      {
        FuturesNext(old(disconnected), waiting, k);
        disconnected := disconnected + FutureOf(waiting[k]);
      }
      assert waiting[..|waiting|] == waiting;
    }
  }

  // ---------------------------------------------------------------- every run

  /** How far the application's messages have come, told from the messages themselves: the start
      message, whether a body was sent, the last body, the last trailers, and whether one was sent
      that the bridge no longer took. */
  datatype Progress = Progress(
    start: Option<Opening>, begun: bool, bodyOver: bool, trailersOver: bool, refused: bool)

  datatype Opening = Opening(status: nat, headers: seq<Header>, trailers: bool)

  /** The body and the trailers sent while the bridge was open. `lost` says that the headers of
      the last trailers message could not be converted. */
  datatype Taken = Taken(body: Bytes, trailers: seq<Header>, lost: bool)

  predicate Announced(p: Progress) {
    p.start.Some? && p.start.value.trailers
  }

  /** Whether a message is of the kind that comes next. */
  predicate Due(p: Progress, m: Message) {
    match m
    case StartMessage(_, _, _, _) => p.start.None?
    case BodyMessage(_, _, _) => p.start.Some? && !p.bodyOver
    case TrailersMessage(_, _, _) => p.bodyOver && Announced(p) && !p.trailersOver
    case _ => false
  }

  predicate Heeded(p: Progress, m: Message) {
    !p.refused && Due(p, m) && m.valid
  }

  function Progressed(accepted: bool, open: bool, p: Progress, m: Message): Progress {
    if !Heeded(p, m) then p
    else
      match m
      case StartMessage(_, status, headers, trailers) => p.(start := Some(Opening(status, headers, trailers)))
      case BodyMessage(_, _, moreBody) => p.(begun := true, bodyOver := !moreBody, refused := !open)
      case TrailersMessage(_, headers, moreTrailers) =>
        p.(trailersOver := !moreTrailers, refused := accepted && headers.Some? && !open)
      case _ => p
  }

  function TakenWith(accepted: bool, open: bool, p: Progress, t: Taken, m: Message): Taken {
    if !open || !Heeded(p, m) then t
    else
      match m
      case BodyMessage(_, body, _) => t.(body := t.body + body)
      case TrailersMessage(_, headers, moreTrailers) =>
        if !accepted then t
        else if headers.Some? then t.(trailers := t.trailers + headers.value)
        else t.(lost := !moreTrailers)
      case _ => t
  }

  /** What the application is told about a message. */
  function AnswerTo(accepted: bool, open: bool, p: Progress, m: Message, future: nat): Answer {
    if p.refused then Disconnected
    else if m.Untyped? then Invalid
    else if !Due(p, m) then Unexpected
    else if !m.valid then Invalid
    else
      match m
      case StartMessage(_, _, _, _) => Done
      case BodyMessage(_, _, moreBody) => if moreBody then Waits(future) else Done
      case TrailersMessage(_, headers, _) =>
        if !accepted then Done else if headers.None? then Invalid else if open then Done else Disconnected
  }

  /** The fields after `nextFuture` only record what happened: futures resolved by the filter
      and futures failed by being dropped, the messages so far and what was taken of them, and
      how often the application failed while the bridge was open. */
  datatype State = State(
    sender: Sender, delivery: Delivery.State<SendEvent>, output: Output, nextFuture: nat,
    written: seq<nat>, disconnected: seq<nat>, progress: Progress, taken: Taken, failures: nat)

  const START :=
    State(FRESH_SENDER, Delivery.Start(), Output(None, []), 0, [], [],
          Progress(None, false, false, false, false), Taken([], [], false), 0)

  datatype Action =
    | Send(message: Message)
    | AppFailed   // the application ended with an exception
    | Handle      // the filter handles the next drained event
    | Deliver(step: Delivery.Action<SendEvent>)  // any other step of the delivery

  predicate Enabled(s: State, a: Action) {
    match a
    case Handle => s.delivery.batch != []
    case Deliver(step) => !step.Send? && !step.Handle? && Delivery.Enabled(s.delivery, step)
    case _ => true
  }

  /** An event reaches the bridge, or is dropped with its future. */
  function AfterSend(s: State, e: SendEvent): State {
    var open := s.delivery.bridge.Open?;
    s.(delivery := Delivery.Apply(s.delivery, Delivery.Send(e)),
       disconnected := if open then s.disconnected else s.disconnected + FutureOf(e))
  }

  function BodyIn(e: SendEvent): Bytes {
    match e
    case StartWith(_, first) => first.body
    case Body(body) => body.body
    case _ => []
  }

  function AfterCall(accepted: bool, s: State, m: Message): State {
    var (sender, sent, answer) :=
      Called(s.sender, accepted, m, s.delivery.bridge.Open?, s.nextFuture);
    var open := s.delivery.bridge.Open?;
    var s1 := s.(
      sender := sender,
      progress := Progressed(accepted, open, s.progress, m),
      taken := TakenWith(accepted, open, s.progress, s.taken, m),
      nextFuture := if answer.Waits? then s.nextFuture + 1 else s.nextFuture);
    if sent.Some? then AfterSend(s1, sent.value) else s1
  }

  function Apply(accepted: bool, s: State, a: Action): State
    requires Enabled(s, a)
  {
    match a
    case Send(message) => AfterCall(accepted, s, message)
    case AppFailed =>
      AfterSend(s, Exception).(failures := if s.delivery.bridge.Open? then s.failures + 1 else s.failures)
    case Handle =>
      var e := s.delivery.batch[0];
      s.(delivery := Delivery.Apply(s.delivery, Delivery.Handle),
         output := Rendered(s.output, e), written := s.written + FutureOf(e))
    case Deliver(step) =>
      s.(delivery := Delivery.Apply(s.delivery, step),
         disconnected := if step.Close? then s.disconnected + FlatMap(Queue(s.delivery.bridge), FutureOf)
                         else s.disconnected)
  }

  /** `accepted` tells whether the client accepts trailers. */
  predicate CanRun(accepted: bool, s: State, actions: seq<Action>)
    decreases |actions|
  {
    actions == []
    || (Enabled(s, actions[0]) && CanRun(accepted, Apply(accepted, s, actions[0]), actions[1..]))
  }

  function Run(accepted: bool, s: State, actions: seq<Action>): State
    requires CanRun(accepted, s, actions)
    decreases |actions|
  {
    if actions == [] then s else Run(accepted, Apply(accepted, s, actions[0]), actions[1..])
  }

  const NO_OUTPUT := Output(None, [])

  /** Everything the accepted events turn into. */
  function Rendering(s: State): Output {
    RenderedAll(NO_OUTPUT, s.delivery.accepted)
  }

  /** The response so far: the calls, and the trailers collected for its end. */
  datatype Response = Response(calls: seq<Call>, pending: Option<seq<Header>>)

  function ResponseOf(s: State): Response {
    Response(ResponseCalls(Rendering(s).calls), Rendering(s).trailers)
  }

  function WithEvent(r: Response, e: SendEvent): Response {
    Response(r.calls + ResponsePart(r.pending, e), NextTrailers(r.pending, e))
  }

  /** The last of the messages that make up the response was sent. */
  predicate Over(accepted: bool, p: Progress) {
    p.bodyOver && (Announced(p) && accepted ==> p.trailersOver)
  }

  predicate InSequence(p: Progress) {
    (p.begun ==> p.start.Some?) && (p.bodyOver ==> p.begun) && (p.trailersOver ==> p.bodyOver && Announced(p))
  }

  // The response so far against the messages.
  ghost predicate ResponseOk(accepted: bool, r: Response, p: Progress, t: Taken) {
    && InSequence(p)
    && WellFormed(r.calls) && EndsInTime(r.calls)
    && DataOf(r.calls) == t.body
    && (r.calls != [] ==> p.begun && Begins(r.calls, p.start.value.status, p.start.value.headers))
    && TrailersAre(r.calls, t.trailers)
    && (NoTrailers(r.calls) || (accepted && Announced(p)))
    && (r.pending.Some? ==>
          r.calls != [] && !Ended(r.calls) && r.pending.value == t.trailers && accepted && Announced(p))
    && (t.lost ==> p.trailersOver && r.pending.Some?)
  }

  // While the bridge is open, the response has got as far as the messages.
  ghost predicate Reflects(accepted: bool, r: Response, p: Progress, t: Taken) {
    var complete := Over(accepted, p) && !t.lost;
    && !p.refused
    && (r.calls != [] <==> p.begun)
    && (Ended(r.calls) <==> complete)
    && (EndsInTrailers(r.calls) <==> complete && accepted && Announced(p))
    && (r.pending.Some? <==> p.begun && accepted && Announced(p) && !complete)
    && (!p.bodyOver ==> t.trailers == [])
  }

  // The sender, as the messages leave it.
  function SenderFor(accepted: bool, p: Progress): Sender {
    var next :=
      if p.start.None? then ExpectStart
      else if !p.bodyOver then ExpectBody(p.start.value.trailers)
      else if Announced(p) && !p.trailersOver then ExpectTrailers
      else Complete;
    Sender(next, if p.start.Some? && !p.begun then Some(StartFor(accepted, p.start.value)) else None, p.refused)
  }

  function StartFor(accepted: bool, o: Opening): StartEvent {
    StartEvent(o.status, o.headers, o.trailers && accepted)
  }

  ghost predicate OutputInv(accepted: bool, s: State) {
    && ResponseOk(accepted, ResponseOf(s), s.progress, s.taken)
    && (s.delivery.bridge.Open? ==> Reflects(accepted, ResponseOf(s), s.progress, s.taken))
    && s.sender == SenderFor(accepted, s.progress)
  }

  /** How often a future was resolved, by either side. */
  function Resolutions(s: State, future: nat): nat {
    Sum(s.written, Is(future)) + Sum(s.disconnected, Is(future))
  }

  // Every future issued is in exactly one place.
  ghost predicate FuturesInv(s: State, future: nat) {
    && Resolutions(s, future) + Sum(s.delivery.batch, Found(FutureOf, future))
       + Sum(Queue(s.delivery.bridge), Found(FutureOf, future))
       == (if future < s.nextFuture then 1 else 0)
    && s.written == FlatMap(s.delivery.handled, FutureOf)
    && (s.disconnected != [] ==> s.delivery.bridge.Shut?)
  }

  ghost predicate Inv(accepted: bool, s: State) {
    && Delivery.Inv(s.delivery)
    && s.output == RenderedAll(NO_OUTPUT, s.delivery.handled)
    && OutputInv(accepted, s)
  }

  lemma RenderedPush(o: Output, events: seq<SendEvent>, e: SendEvent)
    ensures RenderedAll(o, events + [e]) == Rendered(RenderedAll(o, events), e)
  {
    assert (events + [e])[..|events|] == events;
  }

  lemma DataOfEvent(trailers: Option<seq<Header>>, e: SendEvent)
    ensures DataOf(CallsFor(trailers, e)) == BodyIn(e)
  {
    match e
    case StartWith(start, first) =>
      var end := first.future.None? && NextTrailers(trailers, e).None?;
      if end && first.body == [] {
        DataOfOne(Headers(start.status, start.headers, true));
      } else {
        DataOfTwo(Headers(start.status, start.headers, false), Data(first.body, end));
      }
    case Body(body) => DataOfOne(Data(body.body, body.future.None? && trailers.None?));
    case TrailersPart(headers, moreTrailers) =>
      if trailers.Some? && !moreTrailers {
        DataOfOne(Trailers(trailers.value + headers));
      }
    case Exception => DataOfOne(Reply500);
  }

  /** What one event adds to the response. */
  function ResponsePart(trailers: Option<seq<Header>>, e: SendEvent): seq<Call> {
    if e.Exception? then [] else CallsFor(trailers, e)
  }

  lemma RenderedResponse(o: Output, e: SendEvent)
    ensures ResponseCalls(Rendered(o, e).calls) ==
            ResponseCalls(o.calls) + ResponsePart(o.trailers, e)
    ensures DataOf(ResponseCalls(Rendered(o, e).calls)) ==
            DataOf(ResponseCalls(o.calls)) + BodyIn(e)
  {
    CallsAppend(o.calls, CallsFor(o.trailers, e));
    CallsAppend(ResponseCalls(o.calls), ResponsePart(o.trailers, e));
    PartOfEvent(o.trailers, e);
  }

  lemma PartOfEvent(trailers: Option<seq<Header>>, e: SendEvent)
    ensures ResponseCalls(CallsFor(trailers, e)) == ResponsePart(trailers, e)
    ensures DataOf(ResponsePart(trailers, e)) == BodyIn(e)
  {
    if e.Exception? {
      FlatMapOne(AsResponse, Reply500);
    } else {
      DataOfEvent(trailers, e);
      ResponseCallsAll(CallsFor(trailers, e));
    }
  }

  /** An event the bridge takes adds its part to the response. */
  lemma OpenSendRenders(s: State, e: SendEvent)
    requires s.delivery.bridge.Open?
    ensures ResponseOf(AfterSend(s, e)) == WithEvent(ResponseOf(s), e)
  {
    RenderedPush(NO_OUTPUT, s.delivery.accepted, e);
    assert Rendering(AfterSend(s, e)) == Rendered(Rendering(s), e);
    RenderedResponse(Rendering(s), e);
  }

  lemma PartData(pending: Option<seq<Header>>, calls: seq<Call>, e: SendEvent)
    ensures DataOf(calls + ResponsePart(pending, e)) == DataOf(calls) + BodyIn(e)
  {
    CallsAppend(calls, ResponsePart(pending, e));
    PartOfEvent(pending, e);
  }

  /** The first body, with the start message, opens the response. */
  lemma OpeningIsOk(accepted: bool, r: Response, p: Progress, t: Taken, first: BodyEvent)
    requires ResponseOk(accepted, r, p, t) && Reflects(accepted, r, p, t) && p.start.Some? && !p.begun
    ensures var r' := WithEvent(r, StartWith(StartFor(accepted, p.start.value), first));
            var p' := p.(begun := true, bodyOver := first.future.None?);
            var t' := t.(body := t.body + first.body);
            ResponseOk(accepted, r', p', t') && Reflects(accepted, r', p', t')
  {
    var start := StartFor(accepted, p.start.value);
    var part := ResponsePart(r.pending, StartWith(start, first));
    OpeningShape(r.pending, start, first);
    assert [] + part == part;
    PartData(r.pending, [], StartWith(start, first));
  }

  lemma OpeningShape(pending: Option<seq<Header>>, start: StartEvent, first: BodyEvent)
    requires pending.None?
    ensures var part := ResponsePart(pending, StartWith(start, first));
            && WellFormed(part) && EndsInTime(part) && Begins(part, start.status, start.headers)
            && NoTrailers(part)
            && (Ended(part) <==> first.future.None? && !start.trailers)
  {
  }

  /** A further body continues it, and ends it if it is the last and no trailers come. */
  lemma BodyIsOk(accepted: bool, r: Response, p: Progress, t: Taken, body: BodyEvent)
    requires ResponseOk(accepted, r, p, t) && Reflects(accepted, r, p, t) && p.begun && !p.bodyOver
    ensures var r' := WithEvent(r, Body(body));
            var p' := p.(bodyOver := body.future.None?);
            var t' := t.(body := t.body + body.body);
            ResponseOk(accepted, r', p', t') && Reflects(accepted, r', p', t')
  {
    ContinuingIsWellFormed(r, Body(body));
    PartData(r.pending, r.calls, Body(body));
  }

  /** Trailers are collected, and sent with the last of them. */
  lemma TrailersAreOk(accepted: bool, r: Response, p: Progress, t: Taken, headers: seq<Header>, more: bool)
    requires ResponseOk(accepted, r, p, t) && Reflects(accepted, r, p, t)
    requires accepted && p.bodyOver && Announced(p) && !p.trailersOver
    ensures var r' := WithEvent(r, TrailersPart(headers, more));
            var p' := p.(trailersOver := !more);
            var t' := t.(trailers := t.trailers + headers);
            ResponseOk(accepted, r', p', t') && Reflects(accepted, r', p', t')
  {
    var e := TrailersPart(headers, more);
    NoEarlyTrailers(r.calls);
    ContinuingIsWellFormed(r, e);
    PartData(r.pending, r.calls, e);
  }

  /** What later events add continues a response that has not ended. */
  lemma ContinuingIsWellFormed(r: Response, e: SendEvent)
    requires WellFormed(r.calls) && r.calls != [] && !Ended(r.calls) && (e.Body? || e.TrailersPart?)
    ensures WellFormed(r.calls + ResponsePart(r.pending, e))
    ensures (r.calls + ResponsePart(r.pending, e))[0] == r.calls[0]
  {
    WellFormedExtends(r.calls, ResponsePart(r.pending, e));
  }

  /** A legal response that has not ended has no trailers yet. */
  lemma NoEarlyTrailers(calls: seq<Call>)
    requires WellFormed(calls) && !Ended(calls)
    ensures NoTrailers(calls)
  {
  }

  /** The sender's state, its answer and whether it sends an event are what the messages say. */
  lemma CallAgrees(accepted: bool, p: Progress, m: Message, open: bool, future: nat)
    requires InSequence(p)
    ensures var (sender, sent, answer) := Called(SenderFor(accepted, p), accepted, m, open, future);
            && sender == SenderFor(accepted, Progressed(accepted, open, p, m))
            && answer == AnswerTo(accepted, open, p, m, future)
            && (sent.Some? <==> Heeded(p, m) && !m.StartMessage?
                                && (m.TrailersMessage? ==> accepted && m.trailerHeaders.Some?))
  {
  }

  /** A message without an event leaves the response as it was. */
  lemma EventlessIsOk(accepted: bool, r: Response, p: Progress, t: Taken, m: Message, open: bool)
    requires ResponseOk(accepted, r, p, t) && (open ==> Reflects(accepted, r, p, t))
    requires Heeded(p, m) ==> m.StartMessage? || (m.TrailersMessage? && !(accepted && m.trailerHeaders.Some?))
    ensures var p', t' := Progressed(accepted, open, p, m), TakenWith(accepted, open, p, t, m);
            ResponseOk(accepted, r, p', t') && (open ==> Reflects(accepted, r, p', t'))
  {
  }

  /** After the end of the stream messages change nothing. */
  lemma ShutIsOk(accepted: bool, r: Response, p: Progress, t: Taken, m: Message)
    requires ResponseOk(accepted, r, p, t)
    ensures ResponseOk(accepted, r, Progressed(accepted, false, p, m), TakenWith(accepted, false, p, t, m))
  {
  }

  /** The event of a message carries the response on with what is in the message. */
  lemma EventIsOk(accepted: bool, r: Response, p: Progress, t: Taken, m: Message, future: nat)
    requires ResponseOk(accepted, r, p, t) && Reflects(accepted, r, p, t)
    requires Called(SenderFor(accepted, p), accepted, m, true, future).1.Some?
    ensures var sent := Called(SenderFor(accepted, p), accepted, m, true, future).1.value;
            var r', p', t' := WithEvent(r, sent), Progressed(accepted, true, p, m), TakenWith(accepted, true, p, t, m);
            ResponseOk(accepted, r', p', t') && Reflects(accepted, r', p', t')
  {
    match Called(SenderFor(accepted, p), accepted, m, true, future).1.value
    case StartWith(_, first) => OpeningIsOk(accepted, r, p, t, first);
    case Body(body) => BodyIsOk(accepted, r, p, t, body);
    case TrailersPart(headers, more) => TrailersAreOk(accepted, r, p, t, headers, more);
  }

  lemma ShutSendRenders(s: State, e: SendEvent)
    requires s.delivery.bridge.Shut?
    ensures ResponseOf(AfterSend(s, e)) == ResponseOf(s)
  {
  }

  lemma CallKeepsOutput(accepted: bool, s: State, m: Message)
    requires OutputInv(accepted, s)
    ensures OutputInv(accepted, AfterCall(accepted, s, m))
  {
    var open := s.delivery.bridge.Open?;
    var r, r' := ResponseOf(s), ResponseOf(AfterCall(accepted, s, m));
    var (sender, sent, answer) := Called(s.sender, accepted, m, open, s.nextFuture);
    CallAgrees(accepted, s.progress, m, open, s.nextFuture);
    if sent.None? {
      assert r' == r;
      EventlessIsOk(accepted, r, s.progress, s.taken, m, open);
    } else if !open {
      ShutSendRenders(s, sent.value);
      assert r' == ResponseOf(AfterSend(s, sent.value));
      ShutIsOk(accepted, r, s.progress, s.taken, m);
    } else {
      OpenSendRenders(s, sent.value);
      assert r' == ResponseOf(AfterSend(s, sent.value));
      EventIsOk(accepted, r, s.progress, s.taken, m, s.nextFuture);
    }
  }

  lemma FailureKeepsOutput(accepted: bool, s: State)
    requires OutputInv(accepted, s)
    ensures OutputInv(accepted, AfterSend(s, Exception))
  {
    if s.delivery.bridge.Open? {
      OpenSendRenders(s, Exception);
      var r := ResponseOf(s);
      assert r.calls + [] == r.calls;
    }
    assert ResponseOf(AfterSend(s, Exception)) == ResponseOf(s);
  }

  lemma SendKeepsDelivery(s: State, e: SendEvent)
    requires Delivery.Inv(s.delivery)
    ensures Delivery.Inv(AfterSend(s, e).delivery)
    ensures AfterSend(s, e).delivery.handled == s.delivery.handled && AfterSend(s, e).output == s.output
  {
    Delivery.StepKeepsInv(s.delivery, Delivery.Send(e));
  }

  lemma CallKeepsDelivery(accepted: bool, s: State, m: Message)
    requires Delivery.Inv(s.delivery)
    ensures var s' := AfterCall(accepted, s, m);
            Delivery.Inv(s'.delivery) && s'.delivery.handled == s.delivery.handled && s'.output == s.output
  {
    var sent := Called(s.sender, accepted, m, s.delivery.bridge.Open?, s.nextFuture).1;
    if sent.Some? {
      SendKeepsDelivery(s, sent.value);
    }
  }

  lemma HandleKeepsInv(accepted: bool, s: State)
    requires Inv(accepted, s) && Enabled(s, Handle)
    ensures Inv(accepted, Apply(accepted, s, Handle))
  {
    Delivery.StepKeepsInv(s.delivery, Delivery.Handle);
    RenderedPush(NO_OUTPUT, s.delivery.handled, s.delivery.batch[0]);
  }

  lemma DeliverKeepsInv(accepted: bool, s: State, step: Delivery.Action<SendEvent>)
    requires Inv(accepted, s) && Enabled(s, Deliver(step))
    ensures Inv(accepted, Apply(accepted, s, Deliver(step)))
  {
    Delivery.StepKeepsInv(s.delivery, step);
  }

  lemma StepKeepsInv(accepted: bool, s: State, a: Action)
    requires Inv(accepted, s) && Enabled(s, a)
    ensures Inv(accepted, Apply(accepted, s, a))
  {
    match a
    case Send(message) =>
      CallKeepsOutput(accepted, s, message);
      CallKeepsDelivery(accepted, s, message);
    case AppFailed =>
      FailureKeepsOutput(accepted, s);
      SendKeepsDelivery(s, Exception);
    case Handle => HandleKeepsInv(accepted, s);
    case Deliver(step) => DeliverKeepsInv(accepted, s, step);
  }

  lemma StartInv(accepted: bool)
    ensures Inv(accepted, START)
  {
  }

  lemma {:induction false} RunKeepsInv(accepted: bool, s: State, actions: seq<Action>)
    requires Inv(accepted, s) && CanRun(accepted, s, actions)
    ensures Inv(accepted, Run(accepted, s, actions))
    decreases |actions|
  {
    if actions != [] {
      StepKeepsInv(accepted, s, actions[0]);
      RunKeepsInv(accepted, Apply(accepted, s, actions[0]), actions[1..]);
    }
  }

  lemma {:induction false} RenderedPrefix(o: Output, a: seq<SendEvent>, b: seq<SendEvent>)
    ensures var o1, o2 := RenderedAll(o, a), RenderedAll(o, a + b);
            && ResponseCalls(o1.calls) <= ResponseCalls(o2.calls)
            && DataOf(ResponseCalls(o1.calls)) <= DataOf(ResponseCalls(o2.calls))
    decreases |b|
  {
    if b == [] {
      assert a + b == a;
    } else {
      var init := b[..|b| - 1];
      assert a + b == (a + init) + [b[|b| - 1]];
      RenderedPush(o, a + init, b[|b| - 1]);
      RenderedResponse(RenderedAll(o, a + init), b[|b| - 1]);
      RenderedPrefix(o, a, init);
    }
  }

  /** What the response looks like from outside, against the application's messages. */
  ghost predicate Legal(accepted: bool, s: State) {
    var response := ResponseCalls(s.output.calls);
    && WellFormed(response) && !EndsLate(response)
    && DataOf(response) <= s.taken.body
    && (response != [] ==>
          && s.progress.start.Some?
          && Begins(response, s.progress.start.value.status, s.progress.start.value.headers))
    && (forall k | 0 <= k < |response| && response[k].Trailers? ::
          accepted && Announced(s.progress) && response[k].trailers == s.taken.trailers)
    && (s.delivery.handled == s.delivery.accepted ==> DataOf(response) == s.taken.body)
  }

  lemma InvIsLegal(accepted: bool, s: State)
    requires Inv(accepted, s)
    ensures Legal(accepted, s)
  {
    var d := s.delivery;
    Delivery.HandledFirst(d);
    RenderedPrefix(NO_OUTPUT, d.handled, d.batch + Queue(d.bridge) + d.dropped);
    PrefixIsLegal(accepted, ResponseCalls(s.output.calls), ResponseOf(s), s.progress, s.taken);
  }

  lemma PrefixIsLegal(accepted: bool, response: seq<Call>, r: Response, p: Progress, t: Taken)
    requires ResponseOk(accepted, r, p, t) && response <= r.calls
    ensures WellFormed(response) && !EndsLate(response)
    ensures response != [] ==>
              p.start.Some? && Begins(response, p.start.value.status, p.start.value.headers)
    ensures forall k | 0 <= k < |response| && response[k].Trailers? ::
              accepted && Announced(p) && response[k].trailers == t.trailers
  {
    WellFormedPrefix(response, r.calls);
    assert forall k | 0 <= k < |response| :: response[k] == r.calls[k];
  }

  /** For any messages in any order, any batching and any watermarks, the calls other than the
      replies to exceptions form a legal response: one header block, with the status and headers
      of the start message, then data, then one end. The data is a prefix of the bodies in the
      messages sent in order while the bridge was open, and all of them once everything is
      handled. Trailers are only sent if the application announced them and the client accepts
      them, and are those in its messages, joined in order. */
  lemma LegalResponse(accepted: bool, actions: seq<Action>)
    requires CanRun(accepted, START, actions)
    ensures Legal(accepted, Run(accepted, START, actions))
  {
    StartInv(accepted);
    RunKeepsInv(accepted, START, actions);
    InvIsLegal(accepted, Run(accepted, START, actions));
  }

  /** Whatever has been sent and whatever the stream does, the next message is answered as its
      place among the messages says, and nothing else. */
  lemma AnswersAreRight(accepted: bool, actions: seq<Action>, m: Message)
    requires CanRun(accepted, START, actions)
    ensures var s := Run(accepted, START, actions);
            var open := s.delivery.bridge.Open?;
            Called(s.sender, accepted, m, open, s.nextFuture).2 ==
            AnswerTo(accepted, open, s.progress, m, s.nextFuture)
  {
    StartInv(accepted);
    RunKeepsInv(accepted, START, actions);
    var s := Run(accepted, START, actions);
    CallAgrees(accepted, s.progress, m, s.delivery.bridge.Open?, s.nextFuture);
  }

  lemma NoneEnds(calls: seq<Call>, all: seq<Call>)
    requires calls <= all && WellFormed(all) && !Ended(all)
    ensures !Ended(calls)
  {
  }

  /** When everything is handled and the stream lasts, the response has begun exactly if a body
      was sent and has ended exactly if the last of the messages for it was sent, with trailers
      if they were announced and accepted; except after a last trailers message that was lost:
      then no call ever ends it. */
  ghost predicate Completing(accepted: bool, s: State) {
    var response := ResponseCalls(s.output.calls);
    && (s.taken.lost ==> !Ended(response))
    && (s.delivery.bridge.Open? && s.delivery.handled == s.delivery.accepted ==>
          && (response != [] <==> s.progress.begun)
          && (Ended(response) <==> Over(accepted, s.progress) && !s.taken.lost)
          && (EndsInTrailers(response) <==> Ended(response) && accepted && Announced(s.progress)))
  }

  lemma InvIsCompleting(accepted: bool, s: State)
    requires Inv(accepted, s)
    ensures Completing(accepted, s)
  {
    var d := s.delivery;
    Delivery.HandledFirst(d);
    RenderedPrefix(NO_OUTPUT, d.handled, d.batch + Queue(d.bridge) + d.dropped);
    if s.taken.lost {
      NoneEnds(ResponseCalls(s.output.calls), ResponseOf(s).calls);
    }
  }

  lemma CompletesExactly(accepted: bool, actions: seq<Action>)
    requires CanRun(accepted, START, actions)
    ensures Completing(accepted, Run(accepted, START, actions))
  {
    StartInv(accepted);
    RunKeepsInv(accepted, START, actions);
    InvIsCompleting(accepted, Run(accepted, START, actions));
  }

  /** 1 for a failure of the application. */
  function Failure(e: SendEvent): nat {
    if e.Exception? then 1 else 0
  }

  lemma {:induction false} RepliesTo(events: seq<SendEvent>)
    ensures |Replies(RenderedAll(NO_OUTPUT, events).calls)| == Sum(events, Failure)
    decreases |events|
  {
    if events != [] {
      var before, last := events[..|events| - 1], events[|events| - 1];
      var o := RenderedAll(NO_OUTPUT, before);
      RepliesTo(before);
      assert before + [last] == events;
      SumPush(before, Failure, last);
      CallsAppend(o.calls, CallsFor(o.trailers, last));
      RepliesToOne(o.trailers, last);
    }
  }

  lemma RepliesToOne(trailers: Option<seq<Header>>, e: SendEvent)
    ensures |Replies(CallsFor(trailers, e))| == Failure(e)
  {
    if e.Exception? {
      FlatMapOne(AsReply, Reply500);
    } else {
      ResponseCallsAll(CallsFor(trailers, e));
    }
  }

  lemma StepKeepsFailures(accepted: bool, s: State, a: Action)
    requires Enabled(s, a) && Sum(s.delivery.accepted, Failure) == s.failures
    ensures var s' := Apply(accepted, s, a); Sum(s'.delivery.accepted, Failure) == s'.failures
  {
    if a.AppFailed? {
      SumPush(s.delivery.accepted, Failure, Exception);
    } else if a.Send? {
      var sent := Called(s.sender, accepted, a.message, s.delivery.bridge.Open?, s.nextFuture).1;
      if sent.Some? {
        SumPush(s.delivery.accepted, Failure, sent.value);
      }
    }
  }

  lemma {:induction false} RunKeepsFailures(accepted: bool, s: State, actions: seq<Action>)
    requires CanRun(accepted, s, actions) && Sum(s.delivery.accepted, Failure) == s.failures
    ensures var s' := Run(accepted, s, actions); Sum(s'.delivery.accepted, Failure) == s'.failures
    decreases |actions|
  {
    if actions != [] {
      StepKeepsFailures(accepted, s, actions[0]);
      RunKeepsFailures(accepted, Apply(accepted, s, actions[0]), actions[1..]);
    }
  }

  /** Each failure of the application while the stream lasts is answered once, and nothing else
      is: by the time everything is handled, there are as many replies as failures. */
  lemma FailuresAreAnswered(accepted: bool, actions: seq<Action>)
    requires CanRun(accepted, START, actions)
    ensures var s := Run(accepted, START, actions);
            && |Replies(s.output.calls)| <= s.failures
            && (s.delivery.handled == s.delivery.accepted ==> |Replies(s.output.calls)| == s.failures)
  {
    StartInv(accepted);
    RunKeepsInv(accepted, START, actions);
    RunKeepsFailures(accepted, START, actions);
    FailuresCount(Run(accepted, START, actions).delivery);
    RepliesTo(Run(accepted, START, actions).delivery.handled);
  }

  lemma FailuresCount(d: Delivery.State<SendEvent>)
    requires Delivery.Inv(d)
    ensures Sum(d.handled, Failure) <= Sum(d.accepted, Failure)
  {
    Delivery.HandledFirst(d);
    SumAppend(d.handled, d.batch + Queue(d.bridge) + d.dropped, Failure);
  }

  lemma Prepend(accepted: bool, s: State, a: Action, rest: seq<Action>)
    requires Enabled(s, a) && CanRun(accepted, Apply(accepted, s, a), rest)
    ensures CanRun(accepted, s, [a] + rest)
    ensures Run(accepted, s, [a] + rest) == Run(accepted, Apply(accepted, s, a), rest)
  {
    assert ([a] + rest)[1..] == rest;
  }

  /** The exception is needed: announced trailers whose last message cannot be converted leave
      the response without an end, whatever is sent and handled afterwards. */
  lemma LostTrailersNeverEnd(status: nat, headers: seq<Header>, body: Bytes, more: seq<Action>)
    ensures var actions := [Send(StartMessage(true, status, headers, true)), Send(BodyMessage(true, body, false)),
                            Send(TrailersMessage(true, None, false))];
            && CanRun(true, START, actions)
            && var s := Run(true, START, actions);
            && s.taken.lost
            && (CanRun(true, s, more) ==> !Ended(ResponseCalls(Run(true, s, more).output.calls)))
  {
    var a1, a2, a3 := Send(StartMessage(true, status, headers, true)), Send(BodyMessage(true, body, false)),
                      Send(TrailersMessage(true, None, false));
    var s1 := Apply(true, START, a1);
    var s2 := Apply(true, s1, a2);
    var s3 := Apply(true, s2, a3);
    assert s3.taken.lost;
    Prepend(true, s2, a3, []);
    Prepend(true, s1, a2, [a3] + []);
    Prepend(true, START, a1, [a2] + ([a3] + []));
    assert [a1, a2, a3] == [a1] + ([a2] + ([a3] + []));
    StartInv(true);
    RunKeepsInv(true, START, [a1, a2, a3]);
    if CanRun(true, s3, more) {
      RunKeepsInv(true, s3, more);
      LostForGood(true, s3, more);
      InvIsCompleting(true, Run(true, s3, more));
    }
  }

  lemma {:induction false} LostForGood(accepted: bool, s: State, actions: seq<Action>)
    requires s.taken.lost && Inv(accepted, s) && CanRun(accepted, s, actions)
    ensures Run(accepted, s, actions).taken.lost
    decreases |actions|
  {
    if actions != [] {
      StepKeepsInv(accepted, s, actions[0]);
      LostForGood(accepted, Apply(accepted, s, actions[0]), actions[1..]);
    }
  }

  /** A call creates a future exactly when its event carries it. */
  lemma FutureOfCall(s: Sender, accepted: bool, m: Message, open: bool, future: nat)
    ensures var (_, sent, answer) := Called(s, accepted, m, open, future);
            if sent.Some? then FutureOf(sent.value) == (if answer.Waits? then [future] else [])
            else !answer.Waits?
  {
  }

  lemma SendKeepsFutures(s: State, e: SendEvent, next: nat, future: nat)
    requires FuturesInv(s, future) && next == s.nextFuture + |FutureOf(e)|
    requires FutureOf(e) == [] || FutureOf(e) == [s.nextFuture]
    ensures FuturesInv(AfterSend(s, e).(nextFuture := next), future)
  {
    SumPush(Queue(s.delivery.bridge), Found(FutureOf, future), e);
    SumAppend(s.disconnected, FutureOf(e), Is(future));
  }

  lemma CallKeepsFutures(accepted: bool, s: State, m: Message, future: nat)
    requires FuturesInv(s, future)
    ensures FuturesInv(AfterCall(accepted, s, m), future)
  {
    var open := s.delivery.bridge.Open?;
    var (sender, sent, answer) := Called(s.sender, accepted, m, open, s.nextFuture);
    FutureOfCall(s.sender, accepted, m, open, s.nextFuture);
    if sent.Some? {
      var next := s.nextFuture + |FutureOf(sent.value)|;
      SendKeepsFutures(s, sent.value, next, future);
      SameFutures(AfterSend(s, sent.value).(nextFuture := next), AfterCall(accepted, s, m), future);
    }
  }

  lemma SameFutures(s: State, s': State, future: nat)
    requires FuturesInv(s, future) && s'.delivery == s.delivery && s'.nextFuture == s.nextFuture
    requires s'.written == s.written && s'.disconnected == s.disconnected
    ensures FuturesInv(s', future)
  {
  }

  lemma HandleKeepsFutures(accepted: bool, s: State, future: nat)
    requires FuturesInv(s, future) && Enabled(s, Handle)
    ensures FuturesInv(Apply(accepted, s, Handle), future)
  {
    SumAppend(s.written, FutureOf(s.delivery.batch[0]), Is(future));
    FlatMapPush(s.delivery.handled, FutureOf, s.delivery.batch[0]);
  }

  lemma CloseKeepsFutures(accepted: bool, s: State, future: nat)
    requires FuturesInv(s, future)
    ensures FuturesInv(Apply(accepted, s, Deliver(Delivery.Close)), future)
  {
    SumFoundAfter(s.disconnected, Queue(s.delivery.bridge), FutureOf, future);
  }

  lemma StepKeepsFutures(accepted: bool, s: State, a: Action, future: nat)
    requires FuturesInv(s, future) && Enabled(s, a)
    ensures FuturesInv(Apply(accepted, s, a), future)
  {
    match a
    case Send(message) => CallKeepsFutures(accepted, s, message, future);
    case AppFailed => SendKeepsFutures(s, Exception, s.nextFuture, future);
    case Handle => HandleKeepsFutures(accepted, s, future);
    case Deliver(step) =>
      if step.Close? {
        CloseKeepsFutures(accepted, s, future);
      } else if step.Scheduled? {
        ScheduledKeepsFutures(s, future);
      }
  }

  lemma ScheduledKeepsFutures(s: State, future: nat)
    requires FuturesInv(s, future) && Delivery.Enabled(s.delivery, Delivery.Scheduled)
    ensures FuturesInv(s.(delivery := Delivery.Apply(s.delivery, Delivery.Scheduled)), future)
  {
  }

  lemma {:induction false} RunKeepsFutures(accepted: bool, s: State, actions: seq<Action>, future: nat)
    requires FuturesInv(s, future) && CanRun(accepted, s, actions)
    ensures FuturesInv(Run(accepted, s, actions), future)
    decreases |actions|
  {
    if actions != [] {
      StepKeepsFutures(accepted, s, actions[0], future);
      RunKeepsFutures(accepted, Apply(accepted, s, actions[0]), actions[1..], future);
    }
  }

  /** Every future handed to the application is resolved at most once; exactly once when the
      filter has nothing drained left and nothing waits, as after the end of the stream. The
      filter resolves exactly the futures of the bodies it handled, in order; a disconnect is
      only reported once the bridge is closed. */
  lemma FuturesResolveOnce(accepted: bool, actions: seq<Action>, future: nat)
    requires CanRun(accepted, START, actions)
    ensures var s := Run(accepted, START, actions);
            && Resolutions(s, future) <= 1
            && (s.delivery.batch == [] && Queue(s.delivery.bridge) == [] ==>
                  Resolutions(s, future) == if future < s.nextFuture then 1 else 0)
            && s.written == FlatMap(s.delivery.handled, FutureOf)
            && (s.disconnected != [] ==> s.delivery.bridge.Shut?)
  {
    assert FuturesInv(START, future);
    RunKeepsFutures(accepted, START, actions, future);
  }
}
