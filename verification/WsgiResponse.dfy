/** The WSGI response path: `start_response`, `write`, yielded bodies and trailers feed the
    response bridge; the filter turns its events into Envoy calls and tells the worker when a
    body has been written. */
module WsgiResponses {
  import opened Basics
  import opened HttpCalls
  import opened EventBridges
  import Delivery

  datatype StartEvent = StartEvent(status: nat, headers: seq<Header>)

  datatype BodyEvent = BodyEvent(body: Bytes, moreBody: bool)

  datatype ResponseEvent =
    | StartWith(start: StartEvent, first: BodyEvent)
    | Body(body: BodyEvent)
    | TrailersAfter(pending: Option<StartEvent>, trailers: seq<Header>)
    | Exception

  // ---------------------------------------------------------------- the sender

  datatype SenderEvent =
    | SendStart(start: StartEvent, excInfo: bool)
    | SendBody(body: BodyEvent)
    | SendTrailers(trailers: seq<Header>)

  datatype SendStatus = Done | Reraised | StartedTwice | NotStarted

  datatype Sender = Sender(startEvent: Option<StartEvent>, headersSent: bool, closed: bool)

  const FRESH_SENDER := Sender(None, false, false)

  /** What a send leaves behind, puts on the bridge and answers the application. */
  function Sending(s: Sender, e: SenderEvent): (Sender, Option<ResponseEvent>, SendStatus) {
    if s.closed then (s, None, Done)
    else
      match e
      case SendStart(start, excInfo) =>
        if excInfo && s.headersSent then (s, None, Reraised)
        else if !excInfo && (s.startEvent.Some? || s.headersSent) then (s, None, StartedTwice)
        else (s.(startEvent := Some(start)), None, Done)
      case SendBody(body) =>
        var closed := !body.moreBody;
        if s.startEvent.Some? then
          (Sender(None, true, closed), Some(StartWith(s.startEvent.value, body)), Done)
        else if !s.headersSent then (s.(closed := closed), None, NotStarted)
        else (s.(closed := closed), Some(Body(body)), Done)
      case SendTrailers(trailers) =>
        (Sender(None, s.headersSent || s.startEvent.Some?, true),
         Some(TrailersAfter(s.startEvent, trailers)), Done)
  }

  class ResponseSender {
    var startEvent: Option<StartEvent>
    var headersSent: bool
    var closed: bool
    const bridge: EventBridge<ResponseEvent>
    var commits: nat

    ghost predicate Valid()
      reads this, bridge
    {
      bridge.Valid()
    }

    ghost function View(): Sender
      reads this
    {
      Sender(startEvent, headersSent, closed)
    }

    constructor (bridge: EventBridge<ResponseEvent>)
      requires bridge.Valid()
      ensures Valid() && View() == FRESH_SENDER && this.bridge == bridge && commits == 0
    {
      this.bridge := bridge;
      startEvent, headersSent, closed, commits := None, false, false, 0;
    }

    /** A callback is scheduled exactly for the events the bridge takes. */
    method SendAndCommit(event: ResponseEvent)
      requires Valid()
      modifies this`commits, bridge
      ensures Valid() && bridge.View() == Sent(old(bridge.View()), event)
      ensures commits == old(commits) + (if old(bridge.View()).Open? then 1 else 0)
    {
      var r := bridge.Send(event);
      if r.Accepted? {
        commits := commits + 1;
      }
    }

    method Send(event: SenderEvent) returns (status: SendStatus)
      requires Valid()
      modifies this, bridge
      ensures Valid()
      ensures var (s, sent, st) := Sending(old(View()), event);
              && View() == s && status == st
              && bridge.View() == (if sent.Some? then Sent(old(bridge.View()), sent.value)
                                   else old(bridge.View()))
              && commits == old(commits) + (if sent.Some? && old(bridge.View()).Open? then 1 else 0)
    {
      if closed {
        return Done;
      }
      status := Done;
      match event {
        case SendStart(start, excInfo) =>
          if excInfo {
            if headersSent {
              return Reraised;
            }
          } else if startEvent.Some? || headersSent {
            return StartedTwice;
          }
          startEvent := Some(start);
        case SendBody(body) =>
          if !body.moreBody {
            closed := true;
          }
          var start := startEvent;
          startEvent := None;
          if start.Some? {
            headersSent := true;
            SendAndCommit(StartWith(start.value, body));
          } else {
            if !headersSent {
              return NotStarted;
            }
            SendAndCommit(Body(body));
          }
        case SendTrailers(trailers) =>
          closed := true;
          var start := startEvent;
          startEvent := None;
          if start.Some? {
            headersSent := true;
          }
          SendAndCommit(TrailersAfter(start, trailers));
      }
    }
  }

  // ---------------------------------------------------------------- the filter

  /** The Envoy calls for one event, apart from the reply to an exception. */
  function CallsFor(e: ResponseEvent): seq<Call> {
    match e
    case StartWith(start, first) =>
      if first.moreBody then [Headers(start.status, start.headers, false), Data(first.body, false)]
      else if first.body == [] then [Headers(start.status, start.headers, true)]
      else [Headers(start.status, start.headers, false), Data(first.body, true)]
    case Body(body) => [Data(body.body, !body.moreBody)]
    case TrailersAfter(pending, trailers) =>
      (if pending.Some? then [Headers(pending.value.status, pending.value.headers, false)] else [])
      + [Trailers(trailers)]
    case Exception => []
  }

  function Rendered(e: ResponseEvent, responseClosed: bool): seq<Call> {
    if e.Exception? then (if responseClosed then [] else [Reply500]) else CallsFor(e)
  }

  /** 1 for the events after which the worker gets a written signal. */
  function Signal(e: ResponseEvent): nat {
    match e
    case StartWith(_, first) => if first.moreBody then 1 else 0
    case Body(body) => if body.moreBody then 1 else 0
    case _ => 0
  }

  /** All the calls for a list of events. */
  function Emitted(events: seq<ResponseEvent>): seq<Call> {
    FlatMap(events, CallsFor)
  }

  /** Whether a failure is among the events. */
  predicate HasFailed(events: seq<ResponseEvent>) {
    events != [] && (HasFailed(events[..|events| - 1]) || events[|events| - 1].Exception?)
  }

  /** All the calls of one drained batch; only the first exception is replied to. */
  function RenderedAll(events: seq<ResponseEvent>, responseClosed: bool): seq<Call> {
    if events == [] then []
    else
      var before := events[..|events| - 1];
      RenderedAll(before, responseClosed)
      + Rendered(events[|events| - 1], responseClosed || HasFailed(before))
  }

  lemma RenderedNext(calls: seq<Call>, events: seq<ResponseEvent>, k: nat, responseClosed: bool)
    requires k < |events|
    ensures calls + RenderedAll(events[..k + 1], responseClosed) ==
            calls + RenderedAll(events[..k], responseClosed)
            + Rendered(events[k], responseClosed || HasFailed(events[..k]))
    ensures Sum(events[..k + 1], Signal) == Sum(events[..k], Signal) + Signal(events[k])
    ensures HasFailed(events[..k + 1]) == (HasFailed(events[..k]) || events[k].Exception?)
  {
    assert events[..k + 1] == events[..k] + [events[k]];
    assert events[..k + 1][..k] == events[..k];
    SumPush(events[..k], Signal, events[k]);
    Assoc(calls, RenderedAll(events[..k], responseClosed),
          Rendered(events[k], responseClosed || HasFailed(events[..k])));
  }

  class Filter {
    const bridge: EventBridge<ResponseEvent>
    var responseClosed: bool
    var watermarkLevel: nat
    var commits: nat
    var calls: seq<Call>   // made on Envoy
    var signals: nat       // written signals sent to the worker

    ghost predicate Valid()
      reads this, bridge
    {
      bridge.Valid()
    }

    constructor (bridge: EventBridge<ResponseEvent>)
      requires bridge.Valid()
      ensures Valid() && this.bridge == bridge && calls == [] && signals == 0
      ensures !responseClosed && watermarkLevel == 0 && commits == 0
    {
      this.bridge := bridge;
      responseClosed, watermarkLevel, commits, calls, signals := false, 0, 0, [], 0;
    }

    method HandleEvent(event: ResponseEvent)
      modifies this`calls, this`signals, this`responseClosed
      ensures calls == old(calls) + Rendered(event, old(responseClosed))
      ensures signals == old(signals) + Signal(event)
      ensures responseClosed == (old(responseClosed) || event.Exception?)
    {
      match event {
        case StartWith(start, first) =>
          var endStream := !first.moreBody;
          if !endStream {
            signals := signals + 1;
          }
          if endStream && first.body == [] {
            calls := calls + [Headers(start.status, start.headers, true)];
          } else {
            calls := calls + [Headers(start.status, start.headers, false)];
            calls := calls + [Data(first.body, endStream)];
          }
        case Body(body) =>
          var endStream := !body.moreBody;
          if !endStream {
            signals := signals + 1;
          }
          calls := calls + [Data(body.body, endStream)];
        case TrailersAfter(pending, trailers) =>
          if pending.Some? {
            calls := calls + [Headers(pending.value.status, pending.value.headers, false)];
          }
          calls := calls + [Trailers(trailers)];
        case Exception =>
          if !responseClosed {
            responseClosed := true;
            calls := calls + [Reply500];
          }
      }
    }

    method HandleEvents(events: seq<ResponseEvent>)
      modifies this`calls, this`signals, this`responseClosed
      ensures calls == old(calls) + RenderedAll(events, old(responseClosed))
      ensures signals == old(signals) + Sum(events, Signal)
      ensures responseClosed == (old(responseClosed) || HasFailed(events))
    {
      ghost var closed0 := responseClosed;
      for k := 0 to |events|
        invariant calls == old(calls) + RenderedAll(events[..k], closed0)
        invariant signals == old(signals) + Sum(events[..k], Signal)
        invariant responseClosed == (closed0 || HasFailed(events[..k]))
      {
        RenderedNext(old(calls), events, k, closed0);
        HandleEvent(events[k]);
      }
      assert events[..|events|] == events;
    }

    /** A scheduled response callback, with nothing running beside it. */
    method OnScheduledResponse()
      requires Valid()
      modifies this`calls, this`signals, this`responseClosed, bridge
      ensures Valid()
      ensures var events := if watermarkLevel > 0 then [] else Queue(old(bridge.View()));
              && calls == old(calls) + RenderedAll(events, old(responseClosed))
              && signals == old(signals) + Sum(events, Signal)
              && responseClosed == (old(responseClosed) || HasFailed(events))
      ensures bridge.View() == if watermarkLevel > 0 then old(bridge.View()) else Drained(old(bridge.View()))
    {
      if watermarkLevel == 0 {
        var events := bridge.Drain();
        HandleEvents(events);
      }
    }

    method OnAboveWatermark()
      modifies this`watermarkLevel
      ensures watermarkLevel == old(watermarkLevel) + 1
    {
      watermarkLevel := watermarkLevel + 1;
    }

    /** When the last watermark falls, a callback is scheduled for the events that waited. */
    method OnBelowWatermark()
      requires watermarkLevel > 0
      modifies this`watermarkLevel, this`commits
      ensures watermarkLevel == old(watermarkLevel) - 1
      ensures commits == old(commits) + (if watermarkLevel == 0 then 1 else 0)
    {
      watermarkLevel := watermarkLevel - 1;
      if watermarkLevel == 0 {
        commits := commits + 1;
      }
    }

    method OnStreamComplete()
      requires Valid()
      modifies this`responseClosed, bridge
      ensures Valid() && responseClosed && bridge.View() == Shut
    {
      responseClosed := true;
      var _ := bridge.Close();
    }
  }

  /** Handling one more event adds its calls to the response, or at most one reply. */
  lemma RenderedCalls(calls: seq<Call>, e: ResponseEvent, responseClosed: bool)
    ensures ResponseCalls(calls + Rendered(e, responseClosed)) == ResponseCalls(calls) + CallsFor(e)
    ensures Replies(calls + Rendered(e, responseClosed)) ==
            Replies(calls) + (if e.Exception? && !responseClosed then [Reply500] else [])
  {
    CallsAppend(calls, Rendered(e, responseClosed));
    RenderedParts(e, responseClosed);
  }

  lemma RenderedParts(e: ResponseEvent, responseClosed: bool)
    ensures ResponseCalls(Rendered(e, responseClosed)) == CallsFor(e)
    ensures Replies(Rendered(e, responseClosed)) == if e.Exception? && !responseClosed then [Reply500] else []
  {
    if !e.Exception? {
      ResponseCallsAll(CallsFor(e));
    } else if !responseClosed {
      FlatMapOne(AsResponse, Reply500);
      FlatMapOne(AsReply, Reply500);
    }
  }

  // ---------------------------------------------------------------- every run

  /** The worker running the application: running it, waiting for a written signal, about to
      report a failure, or finished. */
  datatype Worker = Running | AwaitingWritten | Failed | Finished

  /** How far the sends have come, told from the sends themselves: the last start that was
      allowed, whether a body or trailers followed it, and whether the last body or trailers
      were sent. */
  datatype Progress = Progress(start: Option<StartEvent>, begun: bool, over: bool)

  /** The body and the trailers sent while the bridge was open. */
  datatype Taken = Taken(body: Bytes, trailers: Option<seq<Header>>)

  predicate StartAllowed(p: Progress, excInfo: bool) {
    if excInfo then !p.begun else p.start.None?
  }

  function Progressed(p: Progress, e: SenderEvent): Progress {
    if p.over then p
    else
      match e
      case SendStart(start, excInfo) => if StartAllowed(p, excInfo) then p.(start := Some(start)) else p
      case SendBody(body) => p.(begun := p.start.Some?, over := !body.moreBody)
      case SendTrailers(_) => p.(begun := p.start.Some?, over := true)
  }

  function TakenWith(open: bool, p: Progress, t: Taken, e: SenderEvent): Taken {
    if p.over || !open then t
    else
      match e
      case SendStart(_, _) => t
      case SendBody(body) => if p.start.Some? then t.(body := t.body + body.body) else t
      case SendTrailers(trailers) => t.(trailers := Some(trailers))
  }

  /** What the application is told about a send. */
  function StatusFor(p: Progress, e: SenderEvent): SendStatus {
    if p.over then Done
    else
      match e
      case SendStart(_, excInfo) =>
        if StartAllowed(p, excInfo) then Done else if excInfo then Reraised else StartedTwice
      case SendBody(_) => if p.start.Some? then Done else NotStarted
      case SendTrailers(_) => Done
  }

  /** `signals` are written signals not received yet. The fields after `worker` only record
      what happened: what was sent so far and taken of it, and counts of completed waits, of
      `write()` calls that sent something, and of yields that waited without having sent
      anything. */
  datatype State = State(
    sender: Sender, delivery: Delivery.State<ResponseEvent>, responseClosed: bool,
    calls: seq<Call>, signals: nat, worker: Worker, progress: Progress, taken: Taken,
    received: nat, writes: nat, idleYields: nat)

  const START := State(FRESH_SENDER, Delivery.Start(), false, [], 0, Running, Progress(None, false, false),
                       Taken([], None), 0, 0, 0)

  datatype Action =
    | StartResponse(start: StartEvent, excInfo: bool)
    | Write(data: Bytes)
    | AddTrailers(trailers: seq<Header>)
    | Yield(data: Bytes) | ReceiveWritten
    | Finish(data: Bytes)   // the last body, or an empty one after the iteration
    | Raise | ReportFailure
    | Handle                // the filter handles the next drained event
    | Deliver(step: Delivery.Action<ResponseEvent>)  // any other step of the delivery

  predicate Enabled(s: State, a: Action) {
    match a
    case Yield(_) => s.worker.Running?
    case Finish(_) => s.worker.Running?
    case Raise => s.worker.Running?
    case ReceiveWritten => s.worker.AwaitingWritten? && s.signals > 0
    case ReportFailure => s.worker.Failed?
    case Handle => s.delivery.batch != []
    case Deliver(step) => !step.Send? && !step.Handle? && Delivery.Enabled(s.delivery, step)
    case _ => true
  }

  /** A send by the application or the worker. */
  function AfterSend(s: State, e: SenderEvent): State {
    var (sender, sent, _) := Sending(s.sender, e);
    var open := s.delivery.bridge.Open?;
    s.(sender := sender,
       delivery := if sent.Some? then Delivery.Apply(s.delivery, Delivery.Send(sent.value)) else s.delivery,
       progress := Progressed(s.progress, e),
       taken := TakenWith(open, s.progress, s.taken, e))
  }

  /** Whether sending `e` puts an event on the bridge. */
  predicate Reaches(s: State, e: SenderEvent) {
    Sending(s.sender, e).1.Some? && s.delivery.bridge.Open?
  }

  function Apply(s: State, a: Action): State
    requires Enabled(s, a)
  {
    match a
    case StartResponse(start, excInfo) => AfterSend(s, SendStart(start, excInfo))
    case Write(data) =>
      var e := SendBody(BodyEvent(data, true));
      AfterSend(s, e).(writes := if Reaches(s, e) then s.writes + 1 else s.writes)
    case AddTrailers(trailers) => AfterSend(s, SendTrailers(trailers))
    case Yield(data) =>
      var e := SendBody(BodyEvent(data, true));
      var status := Sending(s.sender, e).2;
      AfterSend(s, e).(
        worker := if status.Done? then AwaitingWritten else Failed,
        idleYields := if status.Done? && !Reaches(s, e) then s.idleYields + 1 else s.idleYields)
    case ReceiveWritten => s.(worker := Running, signals := s.signals - 1, received := s.received + 1)
    case Finish(data) =>
      var e := SendBody(BodyEvent(data, false));
      AfterSend(s, e).(worker := if Sending(s.sender, e).2.Done? then Finished else Failed)
    case Raise => s.(worker := Failed)
    case ReportFailure =>
      s.(worker := Finished, delivery := Delivery.Apply(s.delivery, Delivery.Send(Exception)))
    case Handle =>
      var e := s.delivery.batch[0];
      s.(delivery := Delivery.Apply(s.delivery, Delivery.Handle),
         calls := s.calls + Rendered(e, s.responseClosed),
         responseClosed := s.responseClosed || e.Exception?,
         signals := s.signals + Signal(e))
    case Deliver(step) =>
      s.(delivery := Delivery.Apply(s.delivery, step),
         responseClosed := s.responseClosed || step.Close?)
  }

  predicate CanRun(s: State, actions: seq<Action>)
    decreases |actions|
  {
    actions == [] || (Enabled(s, actions[0]) && CanRun(Apply(s, actions[0]), actions[1..]))
  }

  function Run(s: State, actions: seq<Action>): State
    requires CanRun(s, actions)
    decreases |actions|
  {
    if actions == [] then s else Run(Apply(s, actions[0]), actions[1..])
  }

  // The calls made are those of the handled events, with at most one reply.
  ghost predicate CallsInv(s: State) {
    && ResponseCalls(s.calls) == Emitted(s.delivery.handled)
    && Replies(s.calls) == (if Replies(s.calls) == [] then [] else [Reply500])
    && (Replies(s.calls) != [] ==> s.responseClosed)
  }

  /** Trailers were sent before any start. */
  predicate Bare(p: Progress, t: Taken) {
    p.start.None? && t.trailers.Some?
  }

  // The accepted events, rendered, against the sends.
  ghost predicate ResponseOk(open: bool, all: seq<Call>, p: Progress, t: Taken) {
    && (p.begun ==> p.start.Some?)
    && DataOf(all) == t.body
    && (t.trailers.Some? ==> p.over)
    && (if Bare(p, t) then all == [Trailers(t.trailers.value)]
        else
          && WellFormed(all) && EndsInTime(all)
          && (all != [] ==> p.begun && Begins(all, p.start.value.status, p.start.value.headers))
          && (if t.trailers.Some? then EndsInTrailers(all) && TrailersAre(all, t.trailers.value)
              else NoTrailers(all))
          && (open ==> (p.begun <==> all != []) && (Ended(all) ==> p.over)))
  }

  // The sender, as the sends leave it.
  function SenderFor(p: Progress): Sender {
    Sender(if p.begun then None else p.start, p.begun, p.over)
  }

  ghost predicate OutputInv(s: State) {
    && ResponseOk(s.delivery.bridge.Open?, Emitted(s.delivery.accepted), s.progress, s.taken)
    && s.sender == SenderFor(s.progress)
  }

  function Outstanding(s: State): nat {
    Sum(s.delivery.batch, Signal) + Sum(Queue(s.delivery.bridge), Signal)
  }

  function Due(w: Worker): nat {
    if w.AwaitingWritten? then 1 else 0
  }

  // Every body that asks for a signal is accounted for.
  ghost predicate FlowInv(s: State) {
    && s.signals + s.received == Sum(s.delivery.handled, Signal)
    && Sum(s.delivery.accepted, Signal) + s.idleYields == s.received + Due(s.worker) + s.writes
    && (s.idleYields > 0 ==> s.sender.closed || s.delivery.bridge.Shut?)
  }

  ghost predicate Inv(s: State) {
    Delivery.Inv(s.delivery) && CallsInv(s) && OutputInv(s) && FlowInv(s)
  }

  /** The calls for each kind of event can begin, or continue, a legal response. */
  lemma CallsForShape(e: ResponseEvent)
    ensures match e
            case StartWith(start, first) =>
              && WellFormed(CallsFor(e)) && EndsInTime(CallsFor(e)) && (Ended(CallsFor(e)) <==> !first.moreBody)
              && CallsFor(e)[0].status == start.status && CallsFor(e)[0].headers == start.headers
            case Body(body) => Continues(CallsFor(e)) && (Ended(CallsFor(e)) <==> !body.moreBody)
            case TrailersAfter(pending, _) =>
              if pending.Some? then
                && WellFormed(CallsFor(e)) && EndsInTime(CallsFor(e))
                && CallsFor(e)[0].status == pending.value.status
                && CallsFor(e)[0].headers == pending.value.headers
              else Continues(CallsFor(e))
            case Exception => CallsFor(e) == []
  {
  }

  lemma EventEmits(events: seq<ResponseEvent>, e: ResponseEvent)
    ensures Emitted(events + [e]) == Emitted(events) + CallsFor(e)
    ensures DataOf(Emitted(events + [e])) == DataOf(Emitted(events)) + BodyIn(e)
  {
    FlatMapPush(events, CallsFor, e);
    CallsAppend(Emitted(events), CallsFor(e));
    DataOfEvent(e);
  }

  /** The event that a send puts on the bridge, if any. */
  function Reached(s: State, e: SenderEvent): seq<ResponseEvent> {
    if Reaches(s, e) then [Sending(s.sender, e).1.value] else []
  }

  lemma SendReaches(s: State, e: SenderEvent)
    ensures AfterSend(s, e).delivery.accepted == s.delivery.accepted + Reached(s, e)
    ensures Reached(s, e) != [] ==>
              BodyIn(Reached(s, e)[0]) == if e.SendBody? then e.body.body else []
  {
  }

  /** What a send adds to the output. */
  lemma SendEmits(s: State, e: SenderEvent)
    ensures Emitted(AfterSend(s, e).delivery.accepted) ==
            Emitted(s.delivery.accepted)
            + (if Reaches(s, e) then CallsFor(Sending(s.sender, e).1.value) else [])
  {
    SendReaches(s, e);
    if Reaches(s, e) {
      EventEmits(s.delivery.accepted, Reached(s, e)[0]);
    } else {
      assert s.delivery.accepted + [] == s.delivery.accepted;
    }
  }

  /** The sender's state, its answer and whether it sends an event are what the sends say. */
  lemma SendAgrees(p: Progress, e: SenderEvent)
    requires p.begun ==> p.start.Some?
    ensures var (sender, sent, status) := Sending(SenderFor(p), e);
            && sender == SenderFor(Progressed(p, e))
            && status == StatusFor(p, e)
            && (sent.Some? <==> !p.over && (e.SendTrailers? || (e.SendBody? && p.start.Some?)))
  {
  }

  /** A send without an event leaves the response as it was. */
  lemma EventlessIsOk(open: bool, all: seq<Call>, p: Progress, t: Taken, e: SenderEvent)
    requires ResponseOk(open, all, p, t)
    requires !open || Sending(SenderFor(p), e).1.None?
    ensures ResponseOk(open, all, Progressed(p, e), TakenWith(open, p, t, e))
  {
  }

  /** A first event, with the recorded start, opens the response. */
  lemma OpeningIsOk(p: Progress, t: Taken, e: SenderEvent)
    requires ResponseOk(true, [], p, t) && p.start.Some? && !p.begun && !p.over && !e.SendStart?
    ensures Sending(SenderFor(p), e).1.Some?
    ensures ResponseOk(true, CallsFor(Sending(SenderFor(p), e).1.value), Progressed(p, e), TakenWith(true, p, t, e))
  {
    var sent := Sending(SenderFor(p), e).1.value;
    CallsForShape(sent);
    DataOfEvent(sent);
    assert t.body == [];
  }

  /** A further body continues it. */
  lemma BodyIsOk(all: seq<Call>, p: Progress, t: Taken, body: BodyEvent)
    requires ResponseOk(true, all, p, t) && p.begun && !p.over
    ensures ResponseOk(true, all + [Data(body.body, !body.moreBody)], p.(over := !body.moreBody),
                       t.(body := t.body + body.body))
  {
    var more := [Data(body.body, !body.moreBody)];
    DataOfOne(more[0]);
    CallsAppend(all, more);
    WellFormedExtends(all, more);
    assert (all + more)[0] == all[0];
  }

  lemma TrailersAreOk(all: seq<Call>, p: Progress, t: Taken, trailers: seq<Header>)
    requires ResponseOk(true, all, p, t) && p.begun && !p.over
    ensures ResponseOk(true, all + [Trailers(trailers)], p.(over := true), t.(trailers := Some(trailers)))
  {
    var more := [Trailers(trailers)];
    DataOfOne(more[0]);
    CallsAppend(all, more);
    assert t.body + [] == t.body;
    WellFormedExtends(all, more);
    assert (all + more)[0] == all[0];
  }

  lemma ContinuingIsOk(all: seq<Call>, p: Progress, t: Taken, e: SenderEvent)
    requires ResponseOk(true, all, p, t) && p.begun && !p.over && !e.SendStart?
    ensures Sending(SenderFor(p), e).1.Some?
    ensures ResponseOk(true, all + CallsFor(Sending(SenderFor(p), e).1.value), Progressed(p, e),
                       TakenWith(true, p, t, e))
  {
    if e.SendBody? {
      BodyIsOk(all, p, t, e.body);
    } else {
      TrailersAreOk(all, p, t, e.trailers);
      assert [] + [Trailers(e.trailers)] == [Trailers(e.trailers)];
    }
  }

  /** Trailers with no start recorded make an illegal response. */
  lemma BareIsOk(p: Progress, t: Taken, trailers: seq<Header>)
    requires ResponseOk(true, [], p, t) && p.start.None? && !p.over
    ensures var e := SendTrailers(trailers);
            && Sending(SenderFor(p), e).1.Some?
            && ResponseOk(true, CallsFor(Sending(SenderFor(p), e).1.value), Progressed(p, e), TakenWith(true, p, t, e))
  {
    DataOfOne(Trailers(trailers));
    assert [] + [Trailers(trailers)] == [Trailers(trailers)];
  }

  /** The event of a send carries the response on with what is sent. */
  lemma EventIsOk(all: seq<Call>, p: Progress, t: Taken, e: SenderEvent, sent: ResponseEvent)
    requires ResponseOk(true, all, p, t) && Sending(SenderFor(p), e).1 == Some(sent)
    ensures ResponseOk(true, all + CallsFor(sent), Progressed(p, e), TakenWith(true, p, t, e))
  {
    var more := CallsFor(sent);
    if p.begun {
      ContinuingIsOk(all, p, t, e);
    } else {
      assert [] + more == more;
      if p.start.Some? {
        OpeningIsOk(p, t, e);
      } else {
        BareIsOk(p, t, e.trailers);
      }
    }
  }

  lemma SendKeepsOutput(s: State, e: SenderEvent)
    requires OutputInv(s)
    ensures OutputInv(AfterSend(s, e))
  {
    var all := Emitted(s.delivery.accepted);
    SendAgrees(s.progress, e);
    SendEmits(s, e);
    if Reaches(s, e) {
      EventIsOk(all, s.progress, s.taken, e, Sending(s.sender, e).1.value);
    } else {
      assert all + [] == all;
      EventlessIsOk(s.delivery.bridge.Open?, all, s.progress, s.taken, e);
    }
  }

  function BodyIn(e: ResponseEvent): Bytes {
    match e
    case StartWith(_, first) => first.body
    case Body(body) => body.body
    case _ => []
  }

  lemma DataOfEvent(e: ResponseEvent)
    ensures DataOf(CallsFor(e)) == BodyIn(e)
  {
    match e
    case StartWith(start, first) =>
      var headers := Headers(start.status, start.headers, false);
      if first.moreBody || first.body != [] {
        DataOfTwo(headers, Data(first.body, !first.moreBody));
      } else {
        DataOfOne(Headers(start.status, start.headers, true));
      }
    case Body(body) => DataOfOne(Data(body.body, !body.moreBody));
    case TrailersAfter(pending, trailers) =>
      DataOfOne(Trailers(trailers));
      if pending.Some? {
        var headers := Headers(pending.value.status, pending.value.headers, false);
        assert CallsFor(e) == [headers, Trailers(trailers)];
        DataOfTwo(headers, Trailers(trailers));
      } else {
        assert CallsFor(e) == [Trailers(trailers)];
      }
    case Exception =>
  }

  /** What a send adds to the events that ask for a signal. */
  lemma SendSignals(s: State, e: SenderEvent)
    ensures Sum(AfterSend(s, e).delivery.accepted, Signal) ==
            Sum(s.delivery.accepted, Signal)
            + (if Reaches(s, e) then Signal(Sending(s.sender, e).1.value) else 0)
  {
    if Reaches(s, e) {
      SumPush(s.delivery.accepted, Signal, Sending(s.sender, e).1.value);
    }
  }

  predicate IsSend(a: Action) {
    a.StartResponse? || a.Write? || a.AddTrailers? || a.Yield? || a.Finish?
  }

  function SentBy(a: Action): SenderEvent
    requires IsSend(a)
  {
    match a
    case StartResponse(start, excInfo) => SendStart(start, excInfo)
    case Write(data) => SendBody(BodyEvent(data, true))
    case AddTrailers(trailers) => SendTrailers(trailers)
    case Yield(data) => SendBody(BodyEvent(data, true))
    case Finish(data) => SendBody(BodyEvent(data, false))
  }

  lemma SendKeepsFlow(s: State, a: Action)
    requires FlowInv(s) && IsSend(a) && Enabled(s, a)
    ensures FlowInv(Apply(s, a))
  {
    SendSignals(s, SentBy(a));
  }

  lemma SendKeepsDelivery(s: State, e: SenderEvent)
    requires Delivery.Inv(s.delivery)
    ensures Delivery.Inv(AfterSend(s, e).delivery)
    ensures AfterSend(s, e).delivery.handled == s.delivery.handled
  {
    var sent := Sending(s.sender, e).1;
    if sent.Some? {
      Delivery.StepKeepsInv(s.delivery, Delivery.Send(sent.value));
    }
  }

  lemma SendStepKeepsOutput(s: State, a: Action)
    requires OutputInv(s) && IsSend(a) && Enabled(s, a)
    ensures OutputInv(Apply(s, a))
  {
    var s1 := AfterSend(s, SentBy(a));
    SendKeepsOutput(s, SentBy(a));
    assert Apply(s, a).delivery == s1.delivery && Apply(s, a).sender == s1.sender;
  }

  lemma SendStepKeepsInv(s: State, a: Action)
    requires Inv(s) && IsSend(a) && Enabled(s, a)
    ensures Inv(Apply(s, a))
  {
    SendKeepsDelivery(s, SentBy(a));
    SendStepKeepsOutput(s, a);
    SendKeepsFlow(s, a);
  }

  lemma ReportKeepsOutput(s: State)
    requires OutputInv(s) && Enabled(s, ReportFailure)
    ensures OutputInv(Apply(s, ReportFailure))
  {
    var s' := Apply(s, ReportFailure);
    if s.delivery.bridge.Open? {
      EventEmits(s.delivery.accepted, Exception);
    }
    assert Emitted(s'.delivery.accepted) == Emitted(s.delivery.accepted);
  }

  lemma ReportKeepsFlow(s: State)
    requires FlowInv(s) && Enabled(s, ReportFailure)
    ensures FlowInv(Apply(s, ReportFailure))
  {
    SumPush(s.delivery.accepted, Signal, Exception);
  }

  lemma ReportKeepsInv(s: State)
    requires Inv(s) && Enabled(s, ReportFailure)
    ensures Inv(Apply(s, ReportFailure))
  {
    Delivery.StepKeepsInv(s.delivery, Delivery.Send(Exception));
    ReportKeepsOutput(s);
    ReportKeepsFlow(s);
  }

  lemma HandleKeepsInv(s: State)
    requires Inv(s) && Enabled(s, Handle)
    ensures Inv(Apply(s, Handle))
  {
    Delivery.StepKeepsInv(s.delivery, Delivery.Handle);
    var e := s.delivery.batch[0];
    RenderedCalls(s.calls, e, s.responseClosed);
    FlatMapPush(s.delivery.handled, CallsFor, e);
    SumPush(s.delivery.handled, Signal, e);
  }

  lemma DeliverKeepsInv(s: State, step: Delivery.Action<ResponseEvent>)
    requires Inv(s) && Enabled(s, Deliver(step))
    ensures Inv(Apply(s, Deliver(step)))
  {
    Delivery.StepKeepsInv(s.delivery, step);
    DeliverMovesOn(s.delivery, step);
  }

  /** The delivery steps other than a send and the handling of an event. */
  lemma DeliverMovesOn(d: Delivery.State<ResponseEvent>, step: Delivery.Action<ResponseEvent>)
    requires Delivery.Enabled(d, step) && !step.Send? && !step.Handle?
    ensures var d' := Delivery.Apply(d, step);
            && d'.accepted == d.accepted && d'.handled == d.handled
            && (d'.bridge.Open? ==> d.bridge.Open?) && (d.bridge.Open? && !step.Close? ==> d'.bridge.Open?)
  {
  }

  lemma StepKeepsInv(s: State, a: Action)
    requires Inv(s) && Enabled(s, a)
    ensures Inv(Apply(s, a))
  {
    match a
    case Handle => HandleKeepsInv(s);
    case ReportFailure => ReportKeepsInv(s);
    case Deliver(step) => DeliverKeepsInv(s, step);
    case Raise =>
    case ReceiveWritten =>
    case _ => SendStepKeepsInv(s, a);
  }

  lemma StartInv()
    ensures Inv(START)
  {
  }

  lemma {:induction false} RunKeepsInv(s: State, actions: seq<Action>)
    requires Inv(s) && CanRun(s, actions)
    ensures Inv(Run(s, actions))
    decreases |actions|
  {
    if actions != [] {
      StepKeepsInv(s, actions[0]);
      RunKeepsInv(Apply(s, actions[0]), actions[1..]);
    }
  }

  lemma EmittedPrefix(events: seq<ResponseEvent>, more: seq<ResponseEvent>)
    ensures Emitted(events) <= Emitted(events + more)
    ensures DataOf(Emitted(events)) <= DataOf(Emitted(events + more))
  {
    FlatMapAppend(events, more, CallsFor);
    CallsAppend(Emitted(events), Emitted(more));
  }

  /** The handled events come first among the accepted ones, so their calls do. */
  lemma HandledCallsComeFirst(s: State)
    requires Delivery.Conserved(s.delivery) && CallsInv(s)
    ensures ResponseCalls(s.calls) <= Emitted(s.delivery.accepted)
    ensures DataOf(ResponseCalls(s.calls)) <= DataOf(Emitted(s.delivery.accepted))
  {
    var d := s.delivery;
    Delivery.HandledFirst(d);
    EmittedPrefix(d.handled, d.batch + Queue(d.bridge) + d.dropped);
  }

  /** What a legal run looks like from outside, against what the application sent. */
  ghost predicate Legal(s: State) {
    var response := ResponseCalls(s.calls);
    var handled := s.delivery.handled == s.delivery.accepted;
    && (if Bare(s.progress, s.taken) then
          handled ==> response == [Trailers(s.taken.trailers.value)] && !WellFormed(response)
        else
          && WellFormed(response) && !EndsLate(response)
          && (response != [] ==>
                && s.progress.start.Some?
                && Begins(response, s.progress.start.value.status, s.progress.start.value.headers))
          && (forall k | 0 <= k < |response| && response[k].Trailers? ::
                s.taken.trailers == Some(response[k].trailers))
          && (handled && s.taken.trailers.Some? ==> EndsInTrailers(response)))
    && DataOf(response) <= s.taken.body
    && (handled ==> response == Emitted(s.delivery.accepted) && DataOf(response) == s.taken.body)
    && |Replies(s.calls)| <= 1
    && (s.sender.startEvent.Some? ==> !s.sender.headersSent)
  }

  lemma InvIsLegal(s: State)
    requires Inv(s)
    ensures Legal(s)
  {
    HandledCallsComeFirst(s);
    var all, response := Emitted(s.delivery.accepted), ResponseCalls(s.calls);
    if !Bare(s.progress, s.taken) {
      PrefixIsLegal(response, all);
    } else {
      BareIsIllegal(s.taken.trailers.value);
    }
  }

  lemma PrefixIsLegal(response: seq<Call>, all: seq<Call>)
    requires WellFormed(all) && response <= all
    ensures WellFormed(response) && (EndsInTime(all) ==> !EndsLate(response))
    ensures response != [] ==> response[0] == all[0]
    ensures forall k | 0 <= k < |response| :: response[k] == all[k]
  {
    WellFormedPrefix(response, all);
  }

  lemma BareIsIllegal(trailers: seq<Header>)
    ensures !WellFormed([Trailers(trailers)])
  {
    assert [Trailers(trailers)][0].Trailers?;
  }

  /** Whatever the application calls in whatever order, however its events are batched and
      whatever the watermarks do: as long as trailers were not sent before any recorded
      `start_response`, the calls form a legal response; its header block is the one of the
      last `start_response` that was allowed; its data is a prefix of the bodies sent while the
      stream lasted, in order, and all of them once everything accepted is handled; its trailers
      are the ones sent, and they are there once everything is handled. A failure is answered at
      most once. Trailers sent first make the response illegal as soon as they are handled. */
  lemma LegalResponse(actions: seq<Action>)
    requires CanRun(START, actions)
    ensures Legal(Run(START, actions))
  {
    StartInv();
    RunKeepsInv(START, actions);
    InvIsLegal(Run(START, actions));
  }

  /** Whatever was sent before, the next send is answered as its place among the sends says. */
  lemma StatusesAreRight(actions: seq<Action>, e: SenderEvent)
    requires CanRun(START, actions)
    ensures var s := Run(START, actions); Sending(s.sender, e).2 == StatusFor(s.progress, e)
  {
    StartInv();
    RunKeepsInv(START, actions);
    OutputAgrees(Run(START, actions), e);
  }

  lemma OutputAgrees(s: State, e: SenderEvent)
    requires OutputInv(s)
    ensures Sending(s.sender, e).2 == StatusFor(s.progress, e)
  {
    SendAgrees(s.progress, e);
  }

  /** While the stream lasts, the filter has made exactly the calls for the events handled. */
  ghost predicate RenderInv(s: State) {
    s.delivery.bridge.Open? ==>
      s.calls == RenderedAll(s.delivery.handled, false) && s.responseClosed == HasFailed(s.delivery.handled)
  }

  lemma HandleKeepsRender(s: State)
    requires RenderInv(s) && Enabled(s, Handle)
    ensures RenderInv(Apply(s, Handle))
  {
    var handled := s.delivery.handled + [s.delivery.batch[0]];
    var k := |s.delivery.handled|;
    assert handled[..k] == s.delivery.handled && handled[..k + 1] == handled;
  }

  /** A failure among the events is replied to, once. */
  lemma {:induction false} RepliesTo(events: seq<ResponseEvent>)
    ensures Replies(RenderedAll(events, false)) == if HasFailed(events) then [Reply500] else []
    decreases |events|
  {
    if events != [] {
      var before, last := events[..|events| - 1], events[|events| - 1];
      RepliesTo(before);
      RenderedCalls(RenderedAll(before, false), last, HasFailed(before));
    }
  }

  // While the stream lasts, a sender is only closed, and a worker only finished, when the
  // accepted events end the response or report a failure, or the failure is about to be reported.
  ghost predicate DoneInv(s: State) {
    var done := Ended(Emitted(s.delivery.accepted)) || HasFailed(s.delivery.accepted);
    s.delivery.bridge.Open? ==>
      && (s.worker.Finished? ==> done)
      && (s.sender.closed ==> done || s.worker.Failed?)
  }

  lemma FailedNext(events: seq<ResponseEvent>, e: ResponseEvent)
    ensures HasFailed(events + [e]) == (HasFailed(events) || e.Exception?)
  {
    assert (events + [e])[..|events|] == events;
  }

  lemma EndedNext(calls: seq<Call>, more: seq<Call>)
    ensures Ended(calls + more) == if more == [] then Ended(calls) else Ended(more)
  {
    assert calls + [] == calls;
  }

  /** An event that is sent ends the response if it closes the sender. */
  lemma ClosingEventEnds(sender: Sender, e: SenderEvent)
    requires Sending(sender, e).1.Some?
    ensures var (sender', sent, _) := Sending(sender, e);
            && !sender.closed && !sent.value.Exception? && CallsFor(sent.value) != []
            && (sender'.closed <==> Ended(CallsFor(sent.value)))
  {
    CallsForShape(Sending(sender, e).1.value);
  }

  lemma SendKeepsDone(s: State, a: Action)
    requires OutputInv(s) && DoneInv(s) && IsSend(a) && Enabled(s, a)
    ensures DoneInv(Apply(s, a))
  {
    if Reaches(s, SentBy(a)) {
      ReachingEnds(s, SentBy(a));
    }
  }

  /** A send that reaches the bridge leaves the response ended exactly if the sender is closed. */
  lemma ReachingEnds(s: State, e: SenderEvent)
    requires Reaches(s, e)
    ensures var s' := AfterSend(s, e);
            && !s.sender.closed
            && (s'.sender.closed <==> Ended(Emitted(s'.delivery.accepted)))
            && HasFailed(s'.delivery.accepted) == HasFailed(s.delivery.accepted)
  {
    var sent := Sending(s.sender, e).1.value;
    ClosingEventEnds(s.sender, e);
    SendEmits(s, e);
    EndedNext(Emitted(s.delivery.accepted), CallsFor(sent));
    FailedNext(s.delivery.accepted, sent);
  }

  lemma SendKeepsCompletion(s: State, a: Action)
    requires IsSend(a) && Enabled(s, a)
    requires RenderInv(s) && DoneInv(s) && OutputInv(s)
    ensures DoneInv(Apply(s, a))
    ensures RenderInv(Apply(s, a))
  {
    SendKeepsDone(s, a);
    SendLeavesOutput(s, SentBy(a));
  }

  lemma SendLeavesOutput(s: State, e: SenderEvent)
    ensures var s' := AfterSend(s, e);
            && s'.calls == s.calls && s'.responseClosed == s.responseClosed
            && s'.delivery.handled == s.delivery.handled && s'.delivery.bridge.Open? == s.delivery.bridge.Open?
  {
  }

  lemma ReportKeepsDone(s: State)
    requires Enabled(s, ReportFailure)
    ensures DoneInv(Apply(s, ReportFailure))
  {
    FailedNext(s.delivery.accepted, Exception);
  }

  lemma DeliverKeepsCompletion(s: State, step: Delivery.Action<ResponseEvent>)
    requires Enabled(s, Deliver(step)) && RenderInv(s) && DoneInv(s)
    ensures RenderInv(Apply(s, Deliver(step))) && DoneInv(Apply(s, Deliver(step)))
  {
  }

  lemma OtherKeepsCompletion(s: State, a: Action)
    requires Enabled(s, a) && (a.Raise? || a.ReceiveWritten?) && RenderInv(s) && DoneInv(s)
    ensures RenderInv(Apply(s, a)) && DoneInv(Apply(s, a))
  {
  }

  lemma StepKeepsCompletion(s: State, a: Action)
    requires OutputInv(s) && Enabled(s, a) && RenderInv(s) && DoneInv(s)
    ensures RenderInv(Apply(s, a)) && DoneInv(Apply(s, a))
  {
    match a
    case Handle => HandleKeepsRender(s);
    case ReportFailure => ReportKeepsDone(s);
    case Deliver(step) => DeliverKeepsCompletion(s, step);
    case Raise => OtherKeepsCompletion(s, a);
    case ReceiveWritten => OtherKeepsCompletion(s, a);
    case _ => SendKeepsCompletion(s, a);
  }

  lemma {:induction false} RunKeepsCompletion(s: State, actions: seq<Action>)
    requires Inv(s) && CanRun(s, actions) && RenderInv(s) && DoneInv(s)
    ensures Inv(Run(s, actions)) && RenderInv(Run(s, actions)) && DoneInv(Run(s, actions))
    decreases |actions|
  {
    if actions != [] {
      StepKeepsInv(s, actions[0]);
      StepKeepsCompletion(s, actions[0]);
      RunKeepsCompletion(Apply(s, actions[0]), actions[1..]);
    }
  }

  /** While the stream lasts the filter's calls are those of the handled events, a failure
      among them being answered once. When a worker is finished and everything is handled, the
      response has ended or the failure was answered. */
  ghost predicate Completing(s: State) {
    var failed := HasFailed(s.delivery.handled);
    s.delivery.bridge.Open? ==>
      && s.calls == RenderedAll(s.delivery.handled, false)
      && Replies(s.calls) == (if failed then [Reply500] else [])
      && (s.worker.Finished? && s.delivery.handled == s.delivery.accepted ==>
            Ended(ResponseCalls(s.calls)) || failed)
  }

  lemma InvIsCompleting(s: State)
    requires CallsInv(s) && RenderInv(s) && DoneInv(s)
    ensures Completing(s)
  {
    RepliesTo(s.delivery.handled);
  }

  lemma StartCompletion()
    ensures RenderInv(START) && DoneInv(START)
  {
  }

  lemma FinishedCompletes(actions: seq<Action>)
    requires CanRun(START, actions)
    ensures Completing(Run(START, actions))
  {
    StartInv();
    StartCompletion();
    RunKeepsCompletion(START, actions);
    InvIsCompleting(Run(START, actions));
  }

  lemma OutstandingCount(d: Delivery.State<ResponseEvent>)
    requires Delivery.Conserved(d)
    ensures Sum(d.accepted, Signal) ==
            Sum(d.handled, Signal) + Sum(d.batch, Signal) + Sum(Queue(d.bridge), Signal)
            + Sum(d.dropped, Signal)
  {
    SumAppend(d.handled, d.batch, Signal);
    SumAppend(d.handled + d.batch, Queue(d.bridge), Signal);
    SumAppend(d.handled + d.batch + Queue(d.bridge), d.dropped, Signal);
  }

  /** Bodies queued but not handled, with the signals not received yet, number at most one more
      than the `write()` calls that sent something. While the stream lasts, a worker waiting
      for a signal will get one exactly if the yields made after the response was closed do
      not outnumber those `write()` calls: then a signal is there, or a body is outstanding
      and a delivery step can be taken. */
  ghost predicate Flowing(s: State) {
    && Outstanding(s) + s.signals <= 1 + s.writes
    && (s.worker.AwaitingWritten? && s.delivery.bridge.Open? ==>
          && (s.signals > 0 || Outstanding(s) > 0 <==> s.idleYields <= s.writes)
          && (Outstanding(s) > 0 ==>
                exists step: Delivery.Action<ResponseEvent> ::
                  Delivery.Enabled(s.delivery, step) && Delivery.Finishing(step)))
    && (s.idleYields > 0 ==> s.sender.closed || s.delivery.bridge.Shut?)
  }

  lemma InvIsFlowing(s: State)
    requires Inv(s)
    ensures Flowing(s)
  {
    OutstandingCount(s.delivery);
    Delivery.EveryEventSettles(s.delivery);
    if s.delivery.accepted == s.delivery.handled + s.delivery.dropped {
      assert |s.delivery.batch + Queue(s.delivery.bridge)| == 0;
      assert Sum(s.delivery.batch, Signal) == 0 && Sum(Queue(s.delivery.bridge), Signal) == 0;
    }
  }

  /** Flow control, in every run. */
  lemma FlowControl(actions: seq<Action>)
    requires CanRun(START, actions)
    ensures Flowing(Run(START, actions))
  {
    StartInv();
    RunKeepsInv(START, actions);
    InvIsFlowing(Run(START, actions));
  }

  lemma Prepend(s: State, a: Action, rest: seq<Action>)
    requires Enabled(s, a) && CanRun(Apply(s, a), rest)
    ensures CanRun(s, [a] + rest) && Run(s, [a] + rest) == Run(Apply(s, a), rest)
  {
    assert ([a] + rest)[1..] == rest;
  }

  /** One event travels: its commit, its callback, its handling. */
  lemma DeliverOne(s: State, e: ResponseEvent)
    requires s.delivery == Delivery.Start<ResponseEvent>().(bridge := Open([e]), owed := 1, accepted := [e])
    ensures CanRun(s, TRAVEL)
    ensures var s' := Run(s, TRAVEL);
            && s'.delivery.handled == s'.delivery.accepted == [e]
            && s'.delivery.bridge == Open([]) && s'.delivery.batch == []
            && s'.signals == s.signals + Signal(e)
            && s'.sender == s.sender && s'.worker == s.worker
            && s'.progress == s.progress && s'.taken == s.taken
  {
    var commit, scheduled := Deliver(Delivery.Commit), Deliver(Delivery.Scheduled);
    var s1 := Apply(s, commit);
    var s2 := Apply(s1, scheduled);
    Prepend(s2, Handle, []);
    Prepend(s1, scheduled, [Handle] + []);
    Prepend(s, commit, [scheduled] + ([Handle] + []));
  }

  const TRAVEL := [Deliver(Delivery.Commit)] + ([Deliver(Delivery.Scheduled)] + ([Handle] + []))

  /** The first condition is needed: sending trailers before any `start_response` makes an
      illegal response. */
  lemma BareTrailersAreIllegal(trailers: seq<Header>)
    ensures var actions := [AddTrailers(trailers)] + TRAVEL;
            && CanRun(START, actions)
            && Bare(Run(START, actions).progress, Run(START, actions).taken)
            && !WellFormed(ResponseCalls(Run(START, actions).calls))
  {
    var s1 := Apply(START, AddTrailers(trailers));
    assert [] + [TrailersAfter(None, trailers)] == [TrailersAfter(None, trailers)];
    DeliverOne(s1, TrailersAfter(None, trailers));
    Prepend(START, AddTrailers(trailers), TRAVEL);
    LegalResponse([AddTrailers(trailers)] + TRAVEL);
  }

  /** A worker that waits after the response was closed, with nothing outstanding. */
  ghost predicate Stalled(s: State) {
    && s.worker.AwaitingWritten? && s.signals == 0 && s.delivery.bridge.Open? && s.sender.closed
    && Outstanding(s) == 0
  }

  lemma StepKeepsStalled(s: State, a: Action)
    requires Stalled(s) && Enabled(s, a) && a != Deliver(Delivery.Close)
    ensures Stalled(Apply(s, a))
  {
    if a.Handle? {
      assert Sum(s.delivery.batch, Signal) == Signal(s.delivery.batch[0]) + Sum(s.delivery.batch[1..], Signal);
    }
  }

  /** Whatever is called and delivered, the wait goes on until the stream is complete. */
  lemma {:induction false} StalledForGood(s: State, actions: seq<Action>)
    requires Stalled(s) && CanRun(s, actions) && Deliver(Delivery.Close) !in actions
    ensures Stalled(Run(s, actions))
    decreases |actions|
  {
    if actions != [] {
      assert actions[0] in actions;
      StepKeepsStalled(s, actions[0]);
      StalledForGood(Apply(s, actions[0]), actions[1..]);
    }
  }

  /** The condition on yields is needed: an application that sends trailers and then yields
      waits for a signal that nothing brings while the stream lasts. */
  lemma YieldAfterTrailersStalls(start: StartEvent, trailers: seq<Header>, data: Bytes, more: seq<Action>)
    ensures var actions := [StartResponse(start, false)] + ([AddTrailers(trailers)] + ([Yield(data)] + TRAVEL));
            && CanRun(START, actions)
            && (CanRun(Run(START, actions), more) && Deliver(Delivery.Close) !in more ==>
                  Stalled(Run(Run(START, actions), more)))
  {
    var s1 := Apply(START, StartResponse(start, false));
    var s2 := Apply(s1, AddTrailers(trailers));
    var s3 := Apply(s2, Yield(data));
    assert [] + [TrailersAfter(Some(start), trailers)] == [TrailersAfter(Some(start), trailers)];
    DeliverOne(s3, TrailersAfter(Some(start), trailers));
    Prepend(s2, Yield(data), TRAVEL);
    Prepend(s1, AddTrailers(trailers), [Yield(data)] + TRAVEL);
    Prepend(START, StartResponse(start, false), [AddTrailers(trailers)] + ([Yield(data)] + TRAVEL));
    var s := Run(s3, TRAVEL);
    if CanRun(s, more) && Deliver(Delivery.Close) !in more {
      StalledForGood(s, more);
    }
  }
}
