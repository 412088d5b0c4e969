/** The ASGI request path: the receive callable puts futures on the receive bridge, and the
    filter answers them with whatever part of the body is readable. */
module AsgiReceives {
  import opened Basics
  import opened EventBridges
  import opened Envoy

  /** An `http.request` event given to a receive future. */
  datatype Event = Event(future: nat, body: Bytes, moreBody: bool)

  /** The events for futures answered by one callback: the first takes everything readable. */
  function Answered(futures: seq<nat>, readable: Bytes, requestClosed: bool): seq<Event> {
    if futures == [] then []
    else [Event(futures[0], readable, !requestClosed)] + Answered(futures[1..], [], requestClosed)
  }

  /** One event each; only the first carries the bytes. */
  lemma {:induction false} AnsweredEach(futures: seq<nat>, readable: Bytes, requestClosed: bool)
    ensures |Answered(futures, readable, requestClosed)| == |futures|
    ensures forall k | 0 <= k < |futures| ::
              Answered(futures, readable, requestClosed)[k] ==
              Event(futures[k], if k == 0 then readable else [], !requestClosed)
    decreases |futures|
  {
    if futures != [] {
      AnsweredEach(futures[1..], [], requestClosed);
    }
  }

  lemma AnsweredNext(events: seq<Event>, futures: seq<nat>, k: nat, readable: Bytes, requestClosed: bool)
    requires k < |futures|
    ensures events + Answered(futures[k..], readable, requestClosed) ==
            events + [Event(futures[k], readable, !requestClosed)] + Answered(futures[k + 1..], [], requestClosed)
  {
    assert futures[k..][1..] == futures[k + 1..];
  }

  class RequestFilter {
    const bridge: EventBridge<nat>
    const envoy: RequestBody
    var requestClosed: bool
    var events: seq<Event>      // results set on receive futures
    var disconnected: seq<nat>  // futures given a disconnect because they were dropped

    ghost predicate Valid()
      reads this, bridge
    {
      bridge.Valid()
    }

    constructor (bridge: EventBridge<nat>, envoy: RequestBody)
      requires bridge.Valid()
      ensures Valid() && this.bridge == bridge && this.envoy == envoy
      ensures !requestClosed && events == [] && disconnected == []
    {
      this.bridge, this.envoy := bridge, envoy;
      requestClosed, events, disconnected := false, [], [];
    }

    /** Each future in turn is given whatever can be read. */
    method AnswerAll(futures: seq<nat>)
      modifies this`events, envoy
      ensures events == old(events) + Answered(futures, old(envoy.Readable()), requestClosed)
      ensures envoy.Readable() == if futures == [] then old(envoy.Readable()) else []
    {
      ghost var readable := envoy.Readable();
      ghost var all := events + Answered(futures, readable, requestClosed);
      for k := 0 to |futures|
        invariant events + Answered(futures[k..], envoy.Readable(), requestClosed) == all
        invariant envoy.Readable() == if k == 0 then readable else []
      {
        AnsweredNext(events, futures, k, envoy.Readable(), requestClosed);
        var body := envoy.ReadRequestBody();
        events := events + [Event(futures[k], body, !requestClosed)];
      }
    }

    method HandleRead()
      requires Valid()
      modifies this`events, bridge, envoy
      ensures Valid()
      ensures var ready := requestClosed || old(envoy.Readable()) != [];
              var futures := if ready then Queue(old(bridge.View())) else [];
              && bridge.View() == (if ready then Drained(old(bridge.View())) else old(bridge.View()))
              && events == old(events) + Answered(futures, old(envoy.Readable()), requestClosed)
              && envoy.Readable() == if futures == [] then old(envoy.Readable()) else []
    {
      var readable := envoy.HasRequestBody();
      if requestClosed || readable {
        var futures := bridge.Drain();
        AnswerAll(futures);
      }
    }

    method OnStreamComplete()
      requires Valid()
      modifies this`disconnected, bridge
      ensures Valid() && bridge.View() == Shut
      ensures disconnected == old(disconnected) + Queue(old(bridge.View()))
    {
      var dropped := bridge.Close();
      disconnected := disconnected + dropped;
    }
  }

  /** One receive call: the new future waits on the bridge, or is dropped at once. */
  method CallReceive(bridge: EventBridge<nat>, future: nat) returns (commit: bool, dropped: seq<nat>)
    requires bridge.Valid()
    modifies bridge
    ensures bridge.Valid() && bridge.View() == Sent(old(bridge.View()), future)
    ensures commit == old(bridge.View()).Open?
    ensures dropped == if commit then [] else [future]
  {
    var r := bridge.Send(future);
    commit := r.Accepted?;
    dropped := if commit then [] else [future];
  }

  // ---------------------------------------------------------------- every run

  /** `envoy` is what Envoy has buffered between callbacks, `arrived` the body so far, and
      futures are numbered in the order of the receive calls. `before` counts the events given
      before the request was closed. */
  datatype State = State(
    bridge: Channel<nat>, owed: nat, commits: nat, envoy: Bytes, requestClosed: bool,
    arrived: Bytes, events: seq<Event>, disconnected: seq<nat>, nextFuture: nat, before: nat)

  const START := State(Open([]), 0, 0, [], false, [], [], [], 0, 0)

  datatype Action =
    | Receive | Commit | Scheduled
    | Deliver(data: Bytes, end: bool)  // a body callback; trailers end the body with no data
    | Complete

  predicate Enabled(s: State, a: Action) {
    match a
    case Commit => s.owed > 0
    case Scheduled => s.commits > 0
    case Deliver(_, _) => !s.requestClosed
    case _ => true
  }

  /** `handle_read` in a callback that comes with `received`. */
  function Read(s: State, received: Bytes): State {
    var readable := s.envoy + received;
    if s.requestClosed || readable != [] then
      s.(bridge := Drained(s.bridge),
         events := s.events + Answered(Queue(s.bridge), readable, s.requestClosed),
         envoy := if Queue(s.bridge) == [] then readable else [])
    else s.(envoy := readable)
  }

  function Apply(s: State, a: Action): State
    requires Enabled(s, a)
  {
    match a
    case Receive =>
      var s1 := s.(bridge := Sent(s.bridge, s.nextFuture), nextFuture := s.nextFuture + 1);
      if s.bridge.Open? then s1.(owed := s.owed + 1)
      else s1.(disconnected := s.disconnected + [s.nextFuture])
    case Commit => s.(owed := s.owed - 1, commits := s.commits + 1)
    case Scheduled => Read(s.(commits := s.commits - 1), [])
    case Deliver(data, end) =>
      Read(s.(requestClosed := end, arrived := s.arrived + data, before := |s.events|), data)
    case Complete => s.(bridge := Shut, disconnected := s.disconnected + Queue(s.bridge))
  }

  predicate CanRun(s: State, actions: seq<Action>)
    decreases |actions|
  {
    actions == [] || (Enabled(s, actions[0]) && CanRun(Apply(s, actions[0]), actions[1..]))
  }

  function Run(s: State, actions: seq<Action>): State
    requires CanRun(s, actions)
    decreases |actions|
  {
    if actions == [] then s else Run(Apply(s, actions[0]), actions[1..])
  }

  function BodyIn(e: Event): Bytes {
    e.body
  }

  /** The body as the application has received it. */
  function Received(events: seq<Event>): Bytes {
    FlatMap(events, BodyIn)
  }

  /** Receive number `k` gets event number `k`; an event without more body comes with the last
      byte, and once the request is closed no other kind is given. */
  ghost predicate EventsOk(s: State) {
    s.before <= |s.events| && forall k | 0 <= k < |s.events| ::
      && s.events[k].future == k
      && (s.events[k].moreBody <==> !s.requestClosed || k < s.before)
      && (!s.events[k].moreBody ==> s.requestClosed && Received(s.events[..k + 1]) == s.arrived)
  }

  ghost predicate Inv(s: State) {
    && Received(s.events) + s.envoy == s.arrived
    && EventsOk(s)
    && |s.events| <= s.nextFuture
    && (if s.bridge.Open? then
          s.bridge.queue == Range(|s.events|, s.nextFuture) && s.disconnected == []
        else s.disconnected == Range(|s.events|, s.nextFuture))
    && (Queue(s.bridge) != [] && (s.requestClosed || s.envoy != []) ==> s.owed > 0 || s.commits > 0)
  }

  /** The events of one callback: numbered on, carrying the readable bytes once. */
  lemma AnsweredEvents(low: nat, high: nat, readable: Bytes, requestClosed: bool)
    requires low <= high
    ensures |Answered(Range(low, high), readable, requestClosed)| == high - low
    ensures forall k | 0 <= k < high - low ::
              Answered(Range(low, high), readable, requestClosed)[k] ==
              Event(low + k, if k == 0 then readable else [], !requestClosed)
  {
    AnsweredEach(Range(low, high), readable, requestClosed);
  }

  lemma OneMoreReceived(before: seq<Event>, events: seq<Event>, k: nat)
    requires k < |events|
    ensures Received(before + events[..k + 1]) == Received(before + events[..k]) + events[k].body
  {
    GrowsBy(before, events, k);
    FlatMapPush(before + events[..k], BodyIn, events[k]);
  }

  /** Only the first of them adds to what was received. */
  lemma {:induction false} ReceivedGrows(before: seq<Event>, events: seq<Event>, readable: Bytes, k: nat)
    requires k <= |events|
    requires forall j | 0 <= j < |events| :: events[j].body == if j == 0 then readable else []
    ensures Received(before + events[..k]) == Received(before) + (if k == 0 then [] else readable)
    decreases k
  {
    if k == 0 {
      assert before + events[..0] == before;
    } else {
      ReceivedGrows(before, events, readable, k - 1);
      OneMoreReceived(before, events, k - 1);
    }
  }

  /** What holds when a callback starts, with `received` delivered by it. */
  ghost predicate ReadReady(s: State, received: Bytes) {
    && Received(s.events) + s.envoy + received == s.arrived
    && EventsOk(s)
    && |s.events| <= s.nextFuture
    && (if s.bridge.Open? then
          s.bridge.queue == Range(|s.events|, s.nextFuture) && s.disconnected == []
        else s.disconnected == Range(|s.events|, s.nextFuture))
  }

  lemma ReadKeepsEvents(s: State, received: Bytes, k: nat)
    requires ReadReady(s, received) && s.bridge.Open? && Queue(s.bridge) != []
    requires s.requestClosed || s.envoy + received != []
    requires k < |Read(s, received).events|
    ensures var s' := Read(s, received);
            && s'.events[k].future == k
            && (s'.events[k].moreBody <==> !s'.requestClosed || k < s'.before)
            && (!s'.events[k].moreBody ==> s'.requestClosed && Received(s'.events[..k + 1]) == s'.arrived)
  {
    var s' := Read(s, received);
    var readable := s.envoy + received;
    var more := Answered(Queue(s.bridge), readable, s.requestClosed);
    var n := |s.events|;
    AnsweredEvents(n, s.nextFuture, readable, s.requestClosed);
    if k < n {
      assert s'.events[..k + 1] == s.events[..k + 1];
    } else {
      assert s'.events[..k + 1] == s.events + more[..k + 1 - n];
      ReceivedGrows(s.events, more, readable, k + 1 - n);
      Assoc(Received(s.events), s.envoy, received);
    }
  }

  lemma ReadKeepsInv(s: State, received: Bytes)
    requires ReadReady(s, received)
    ensures Inv(Read(s, received))
  {
    var s' := Read(s, received);
    var readable := s.envoy + received;
    Assoc(Received(s.events), s.envoy, received);
    if (s.requestClosed || readable != []) && Queue(s.bridge) != [] {
      var more := Answered(Queue(s.bridge), readable, s.requestClosed);
      AnsweredEvents(|s.events|, s.nextFuture, readable, s.requestClosed);
      ReceivedGrows(s.events, more, readable, |more|);
      assert more[..|more|] == more;
      forall k | 0 <= k < |s'.events|
        ensures s'.events[k].future == k
        ensures s'.events[k].moreBody <==> !s'.requestClosed || k < s'.before
        ensures !s'.events[k].moreBody ==> s'.requestClosed && Received(s'.events[..k + 1]) == s'.arrived
      {
        ReadKeepsEvents(s, received, k);
      }
    } else {
      assert s'.events == s.events;
    }
  }

  lemma DeliverKeepsInv(s: State, data: Bytes, end: bool)
    requires Inv(s) && !s.requestClosed
    ensures Inv(Apply(s, Deliver(data, end)))
  {
    assert forall k | 0 <= k < |s.events| :: s.events[k].moreBody;
    ReadKeepsInv(s.(requestClosed := end, arrived := s.arrived + data, before := |s.events|), data);
  }

  lemma StepKeepsInv(s: State, a: Action)
    requires Inv(s) && Enabled(s, a)
    ensures Inv(Apply(s, a))
  {
    match a
    case Scheduled => ReadKeepsInv(s.(commits := s.commits - 1), []);
    case Deliver(data, end) =>
      DeliverKeepsInv(s, data, end);
    case Receive => ReceiveKeepsInv(s);
    case _ =>
  }

  lemma ReceiveKeepsInv(s: State)
    requires Inv(s)
    ensures Inv(Apply(s, Receive))
  {
    assert Range(|s.events|, s.nextFuture + 1) == Range(|s.events|, s.nextFuture) + [s.nextFuture];
  }

  lemma {:induction false} RunKeepsInv(s: State, actions: seq<Action>)
    requires Inv(s) && CanRun(s, actions)
    ensures Inv(Run(s, actions))
    decreases |actions|
  {
    if actions != [] {
      StepKeepsInv(s, actions[0]);
      RunKeepsInv(Apply(s, actions[0]), actions[1..]);
    }
  }

  /** No receive is answered for nothing: with bytes, or because the request is closed. */
  lemma AnsweredWithNews(actions: seq<Action>, a: Action)
    requires CanRun(START, actions) && Enabled(Run(START, actions), a)
    ensures var s := Run(START, actions);
            var s' := Apply(s, a);
            s'.events != s.events ==> s'.requestClosed || Received(s'.events) != Received(s.events)
  {
    StartInv();
    RunKeepsInv(START, actions);
    var s := Run(START, actions);
    StepKeepsInv(s, a);
    if Apply(s, a).events != s.events && !Apply(s, a).requestClosed {
      NewsIsBytes(s, a);
    }
  }

  lemma NewsIsBytes(s: State, a: Action)
    requires Inv(s) && Enabled(s, a) && Inv(Apply(s, a))
    requires Apply(s, a).events != s.events && !Apply(s, a).requestClosed
    ensures |Received(Apply(s, a).events)| > |Received(s.events)|
  {
    var s' := Apply(s, a);
    assert |Received(s'.events)| + |s'.envoy| == |s'.arrived|;
    assert |Received(s.events)| + |s.envoy| == |s.arrived|;
  }

  lemma StartInv()
    ensures Inv(START)
  {
  }

  /** In every run: the bodies received are a prefix of the request body, and the rest of what
      arrived is still in Envoy; `more_body` is false only with the last byte; the k-th
      receive gets the k-th event, and every receive is answered, waiting, or disconnected,
      exactly once, none waiting after the end of the stream; and a receive that could be
      answered always has a callback on its way. */
  lemma ReceiveIsFaithful(actions: seq<Action>)
    requires CanRun(START, actions)
    ensures var s := Run(START, actions);
            && Received(s.events) + s.envoy == s.arrived
            && EventsOk(s)
            && Queue(s.bridge) + s.disconnected == Range(|s.events|, s.nextFuture)
            && (s.bridge.Open? ==> s.disconnected == [])
            && (Queue(s.bridge) != [] && s.owed == s.commits == 0 ==> !s.requestClosed && s.envoy == [])
  {
    RunKeepsInv(START, actions);
  }
}
