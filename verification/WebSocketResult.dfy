/** What holds in every run of a WebSocket connection. */
module WebSocketResults {
  import opened Basics
  import opened EventBridges
  import opened WebSockets
  import opened WebSocketReceives
  import opened WebSocketRuns

  ghost predicate Inv(d: Decoder, s: State, future: nat)
    requires Sound(d)
  {
    && Safe(s) && InputInv(d, s) && Attended(d, s) && ReceivesInv(s) && OutputInv(s) && FuturesInv(s, future)
    && SaidInv(s) && WrittenOk(s.filter)
  }

  lemma StepKeepsInv(d: Decoder, s: State, a: Action, future: nat)
    requires Sound(d) && Inv(d, s, future) && Allowed(d, s, a)
    ensures Inv(d, Apply(s, a), future)
  {
    StepKeepsSafe(s, a);
    StepKeepsInput(d, s, a);
    StepKeepsAttended(d, s, a);
    StepKeepsReceives(s, a);
    StepKeepsOutput(s, a);
    StepKeepsFutures(s, a, future);
    StepKeepsSaid(s, a);
    StepKeepsWritten(s, a);
  }

  lemma {:induction false} RunKeepsInv(d: Decoder, s: State, actions: seq<Action>, future: nat)
    requires Sound(d) && Inv(d, s, future) && CanRun(d, s, actions)
    ensures Inv(d, Run(d, s, actions), future)
    decreases |actions|
  {
    if actions != [] {
      StepKeepsInv(d, s, actions[0], future);
      RunKeepsInv(d, Apply(s, actions[0]), actions[1..], future);
    }
  }

  lemma StartInv(d: Decoder, future: nat)
    requires Sound(d)
    ensures Inv(d, START, future)
  {
    StartInput(d);
    StartQuiet(future);
    StartSaid();
  }

  lemma StartQuiet(future: nat)
    ensures Safe(START) && ReceivesInv(START) && OutputInv(START) && FuturesInv(START, future)
  {
  }

  lemma StartSaid()
    ensures SaidInv(START) && WrittenOk(START.filter)
  {
  }

  lemma StartInput(d: Decoder)
    requires Sound(d)
    ensures InputInv(d, START)
  {
    ExactFromStart(d);
  }

  lemma RunFromStart(d: Decoder, actions: seq<Action>, future: nat)
    requires Sound(d) && CanRun(d, START, actions)
    ensures Inv(d, Run(d, START, actions), future)
  {
    StartInv(d, future);
    RunKeepsInv(d, START, actions, future);
  }

  lemma RunSafe(d: Decoder, actions: seq<Action>)
    requires Sound(d) && CanRun(d, START, actions)
    ensures Safe(Run(d, START, actions))
  {
    RunFromStart(d, actions, 0);
  }

  lemma RunReceives(d: Decoder, actions: seq<Action>)
    requires Sound(d) && CanRun(d, START, actions)
    ensures ReceivesInv(Run(d, START, actions))
  {
    RunFromStart(d, actions, 0);
  }

  lemma RunAttended(d: Decoder, actions: seq<Action>)
    requires Sound(d) && CanRun(d, START, actions)
    ensures Attended(d, Run(d, START, actions))
  {
    RunFromStart(d, actions, 0);
  }

  lemma RunOutput(d: Decoder, actions: seq<Action>)
    requires Sound(d) && CanRun(d, START, actions)
    ensures OutputInv(Run(d, START, actions))
  {
    RunFromStart(d, actions, 0);
  }

  /** In no run is a bridge found empty where the filter takes an event for granted, or an
      event met that it takes for impossible. */
  lemma NeverPanics(d: Decoder, actions: seq<Action>)
    requires Sound(d) && CanRun(d, START, actions)
    ensures !Run(d, START, actions).filter.panicked
  {
    RunFromStart(d, actions, 0);
  }

  /** Whenever a callback may take send events, they are ones it can take. */
  lemma CallbackIsReady(d: Decoder, actions: seq<Action>)
    requires Sound(d) && CanRun(d, START, actions)
    ensures var s := Run(d, START, actions);
            Enabled(s, ScheduledResponse) && s.level == 0 ==> SendReady(s.filter, Queue(s.send))
  {
    RunSafe(d, actions);
    SafeIsReady(Run(d, START, actions));
  }

  lemma SafeIsReady(s: State)
    requires Safe(s)
    ensures Enabled(s, ScheduledResponse) && s.level == 0 ==> SendReady(s.filter, Queue(s.send))
  {
  }

  lemma RunInput(d: Decoder, actions: seq<Action>)
    requires Sound(d) && CanRun(d, START, actions)
    ensures InputInv(d, Run(d, START, actions))
  {
    RunFromStart(d, actions, 0);
  }

  /** Receive number `k` is given answer number `k`, or waits, or is dropped when the bridge
      closes. Connect events come first, disconnects last. */
  lemma ReceivesAreExact(d: Decoder, actions: seq<Action>)
    requires Sound(d) && CanRun(d, START, actions)
    ensures var s := Run(d, START, actions);
            && AnswersOk(s.answers)
            && Queue(s.recv) + s.dropped == Range(|s.answers|, s.nextReceive)
            && (s.recv.Open? ==> s.dropped == [])
  {
    RunReceives(d, actions);
  }

  /** The messages answered, in order, are a prefix of those in the bytes that arrived. They are
      all of them once the decoder has met a close frame or an error, and whenever a receive
      waits on an open connection with no commit on its way. */
  lemma MessagesAreExact(d: Decoder, actions: seq<Action>)
    requires Sound(d) && CanRun(d, START, actions)
    ensures var s := Run(d, START, actions);
            var waiting := Queue(s.recv) != [] && s.filter.phase.Open? && s.reading.Idle?;
            && MessagesIn(s.answers) <= Messages(d, [], s.input.arrived)
            && (s.input.ended || (waiting && s.reqOwed == s.reqCommits == 0) ==>
                  MessagesIn(s.answers) == Messages(d, [], s.input.arrived))
  {
    RunInput(d, actions);
    RunAttended(d, actions);
    var s := Run(d, START, actions);
    var i := s.input;
    var rest := i.arrived[i.done..];
    assert Decoded(i) + rest == i.arrived;
    if i.ended {
      assert CompleteWith(d, Decoded(i), MessagesIn(s.answers), rest);
    } else {
      ExactAt(d, Decoded(i), MessagesIn(s.answers), rest);
      if UsedUp(d, i) {
        assert Ahead(i) == rest;
      }
    }
  }

  /** The client gets at most one handshake answer and no frame before it, nothing but close
      frames after a close frame, and as messages a prefix of the bodies the bridge took, in
      order: all of them once nothing waits, unless the connection was closed or refused. */
  lemma OutputIsOrdered(d: Decoder, actions: seq<Action>)
    requires Sound(d) && CanRun(d, START, actions)
    ensures var s := Run(d, START, actions);
            && InOrder(s.filter.effects)
            && (forall e | e in s.filter.effects && IsFrame(e) :: Respond101 in s.filter.effects)
            && Frames(s.filter) <= s.said.bodies
            && (s.send == Channel.Open([]) && s.filter.closeFrame.None? && !s.filter.phase.Over? ==>
                  Frames(s.filter) == s.said.bodies)
  {
    RunOutput(d, actions);
    assert FlatMap([], BodyIn) == [];
  }

  /** Every send future is resolved at most once, and exactly once when no event waits, as
      after the bridge is closed; as many with success as accepts and messages went out. */
  lemma SendsResolveOnce(d: Decoder, actions: seq<Action>, future: nat)
    requires Sound(d) && CanRun(d, START, actions)
    ensures var s := Run(d, START, actions);
            && Resolutions(s.filter, future) <= 1
            && (Queue(s.send) == [] ==>
                  Resolutions(s.filter, future) == if future < s.nextSend then 1 else 0)
            && |s.filter.written| == Sum(s.filter.effects, Succeeds)
  {
    RunFromStart(d, actions, future);
    ResolvedOnce(Run(d, START, actions), future);
  }

  lemma ResolvedOnce(s: State, future: nat)
    requires FuturesInv(s, future) && WrittenOk(s.filter)
    ensures Resolutions(s.filter, future) <= 1
    ensures Queue(s.send) == [] ==> Resolutions(s.filter, future) == if future < s.nextSend then 1 else 0
    ensures |s.filter.written| == Sum(s.filter.effects, Succeeds)
  {
  }

  lemma RunSaid(d: Decoder, actions: seq<Action>)
    requires Sound(d) && CanRun(d, START, actions)
    ensures SaidInv(Run(d, START, actions))
  {
    RunFromStart(d, actions, 0);
  }

  /** The handshake is answered with 101, 403 or 500 exactly as the first thing the application
      did while the bridge was open was to accept, to close or to fail. */
  ghost predicate AnsweredRight(s: State) {
    var effects := s.filter.effects;
    var decided := s.filter.phase.Open? || s.filter.phase.Over?;
    && (Respond101 in effects <==> decided && s.said.first == Some(ToAccept))
    && (Respond403 in effects <==> decided && s.said.first == Some(ToClose))
    && (Respond500 in effects <==> decided && s.said.first == Some(ToFail))
    && (s.filter.phase.Open? <==> Respond101 in effects)
    && (decided ==> s.said.first.Some?)
    && (decided && s.said.first == Some(ToEnd) ==> CloseConnection(AppEnded) in effects)
  }

  lemma SaidIsAnswered(s: State)
    requires SaidInv(s) && OutputInv(s)
    ensures AnsweredRight(s)
  {
    assert forall e | e in s.filter.effects :: Fits(e, s.filter.phase, s.filter.closeFrame.Some?);
    assert forall e | e in s.filter.effects :: EffectSaid(e, s.said, s.found);
  }

  lemma HandshakeIsAnswered(d: Decoder, actions: seq<Action>)
    requires Sound(d) && CanRun(d, START, actions)
    ensures AnsweredRight(Run(d, START, actions))
  {
    RunSaid(d, actions);
    RunOutput(d, actions);
    SaidIsAnswered(Run(d, START, actions));
  }

  /** The connection is cut for a bad handshake exactly when there is junk after the request or
      the client sends more before it is answered; and at the end of a closing handshake. */
  lemma CutsAreRight(s: State, a: Action)
    requires Enabled(s, a) && !a.ScheduledResponse?
    ensures var effects := Apply(s, a).filter.effects;
            && (effects == s.filter.effects + [CloseConnection(BadHandshake)] <==>
                  a == ReadHandshake(Junk) || (a.OnRead? && s.filter.phase.FinishHandshake?))
            && (effects == s.filter.effects + [CloseConnection(Finished)] <==> a == CleanUp(true))
  {
    var effects := Apply(s, a).filter.effects;
    OneEffect(s, a);
    assert effects != s.filter.effects ==> effects[|s.filter.effects|] == effects[|effects| - 1];
    LastEffect(s.filter.effects, CloseConnection(BadHandshake));
    LastEffect(s.filter.effects, CloseConnection(Finished));
    assert s.filter.effects + [] == s.filter.effects;
  }

  lemma LastEffect(effects: seq<Effect>, e: Effect)
    ensures |effects + [e]| == |effects| + 1 && (effects + [e])[|effects|] == e
  {
  }

  /** A message is answered as its place among the messages says. */
  lemma AnswersAreRight(d: Decoder, actions: seq<Action>, m: Message)
    requires Sound(d) && CanRun(d, START, actions)
    ensures var s := Run(d, START, actions); Called(s.sender, m, s.nextSend).2 == AnswerTo(s.said, m, s.nextSend)
  {
    RunSaid(d, actions);
    var s := Run(d, START, actions);
    CallAgrees(s.send.Open?, s.said, m, s.nextSend);
  }

  /** Every close frame that goes out is one the application closed with, the one for its
      failure, or what ended the client's stream; a receive is told what ended the client's
      stream, or else one of the first two. When no event waits on an open connection, each close
      and failure was shown, and the end of the application too unless a close was known. */
  lemma ClosesAreTrue(d: Decoder, actions: seq<Action>)
    requires Sound(d) && CanRun(d, START, actions)
    ensures var s := Run(d, START, actions);
            && (forall e | e in s.filter.effects && e.SendClose? :: Origin(s.said, s.found, e.frame))
            && (CloseConnection(AppEnded) in s.filter.effects ==> s.said.returned)
            && (forall a | a in s.answers && a.event.Disconnect? ::
                  if s.found.Some? then Ends(s.found.value, a.event.frame) else SaidFrame(s.said, a.event.frame))
            && (s.send == Channel.Open([]) && s.filter.phase.Open? ==> Shown(s.filter, [], s.said))
  {
    RunSaid(d, actions);
    var s := Run(d, START, actions);
    assert forall e | e in s.filter.effects :: EffectSaid(e, s.said, s.found);
  }

  /** When no commit for them is on its way and the watermark is low, no event waits to be sent;
      when no commit for them is on its way and the loop is not running, receives of an accepted
      connection wait only if the decoder has all bytes that arrived and needs more. */
  lemma NothingIsStranded(d: Decoder, actions: seq<Action>)
    requires Sound(d) && CanRun(d, START, actions)
    ensures var s := Run(d, START, actions);
            && (s.respOwed == s.respCommits == s.level == 0 ==> Queue(s.send) == [])
            && (s.reqOwed == s.reqCommits == 0 && s.reading.Idle? && s.filter.phase.Open? && Queue(s.recv) != [] ==>
                  UsedUp(d, s.input))
  {
    RunAttended(d, actions);
  }

  // ---------------------------------------------------------------- the loop as a method

  lemma {:induction false} RunAppend(d: Decoder, s: State, a: seq<Action>, b: seq<Action>)
    requires CanRun(d, s, a) && CanRun(d, Run(d, s, a), b)
    ensures CanRun(d, s, a + b) && Run(d, s, a + b) == Run(d, Run(d, s, a), b)
    decreases |a|
  {
    if a == [] {
      assert a + b == b;
    } else {
      assert (a + b)[1..] == a[1..] + b;
      RunAppend(d, Apply(s, a[0]), a[1..], b);
    }
  }

  function Receives(n: nat): seq<Action> {
    seq(n, _ => Receive)
  }

  lemma {:induction false} ReceivesJoin(d: Decoder, s: State, n: nat)
    requires s.filter.phase.Open? && s.recv.Open?
    ensures CanRun(d, s, Receives(n))
    ensures var s' := Run(d, s, Receives(n));
            && LoopOf(s') == Joined(LoopOf(s), Range(s.nextReceive, s.nextReceive + n))
            && s'.filter == s.filter && s'.nextReceive == s.nextReceive + n
    decreases n
  {
    if n == 0 {
      assert s.recv.queue + [] == s.recv.queue;
    } else {
      assert Receives(n)[1..] == Receives(n - 1);
      ReceivesJoin(d, Apply(s, Receive), n - 1);
      assert [s.nextReceive] + Range(s.nextReceive + 1, s.nextReceive + n) == Range(s.nextReceive, s.nextReceive + n);
      Assoc(s.recv.queue, [s.nextReceive], Range(s.nextReceive + 1, s.nextReceive + n));
    }
  }

  lemma RoundRuns(d: Decoder, s: State)
    requires s.reading.Decoding? && s.filter.phase.Open? && s.recv.Open?
    ensures var u := Verdict(d, s.input);
            && CanRun(d, s, [Decode(u)])
            && var s' := Run(d, s, [Decode(u)]);
            && LoopOf(s') == AfterRound(LoopOf(s), u)
            && s'.filter.phase.Open? && s'.recv.Open? && s'.nextReceive == s.nextReceive
  {
    OneStep(d, s, Decode(Verdict(d, s.input)));
  }

  lemma OneStep(d: Decoder, s: State, a: Action)
    requires Allowed(d, s, a)
    ensures CanRun(d, s, [a]) && Run(d, s, [a]) == Apply(s, a)
  {
    assert [a][1..] == [];
    assert Run(d, Apply(s, a), []) == Apply(s, a);
  }

  /** A loop that takes receives and messages, as far as the next round needs to know. */
  ghost predicate Reads(s: State, l: Loop, next: nat) {
    LoopOf(s) == l && s.filter.phase.Open? && s.recv.Open? && s.nextReceive == next
  }

  lemma OneRound(d: Decoder, s: State, l: Loop, next: nat, after: nat) returns (actions: seq<Action>)
    requires Reads(s, l, next) && l.reading.Decoding? && next <= after
    ensures CanRun(d, s, actions)
    ensures Reads(Run(d, s, actions), NextRound(d, l, Range(next, after)), after)
  {
    var receives := Receives(after - next);
    ReceivesJoin(d, s, after - next);
    var s1 := Run(d, s, receives);
    RoundRuns(d, s1);
    RunAppend(d, s, receives, [Decode(Verdict(d, s1.input))]);
    actions := receives + [Decode(Verdict(d, s1.input))];
  }

  /** The rounds that `Reader.ReadWebSocket` makes are a run, with the receives that are made
      during round `k` numbered from `first(k)`. */
  lemma {:induction false} RoundsAreARun(d: Decoder, s: State, l: Loop, arriving: nat -> seq<nat>, first: nat -> nat,
                                         n: nat) returns (actions: seq<Action>)
    requires Reads(s, l, first(0))
    requires forall j: nat, k: nat | j <= k <= n :: first(j) <= first(k)
    requires forall k: nat | k < n :: arriving(k) == Range(first(k), first(k + 1))
    requires forall k: nat | k < n :: AfterRounds(d, l, arriving, k).reading.Decoding?
    ensures CanRun(d, s, actions) && Reads(Run(d, s, actions), AfterRounds(d, l, arriving, n), first(n))
    decreases n
  {
    if n == 0 {
      actions := [];
    } else {
      var before := RoundsAreARun(d, s, l, arriving, first, n - 1);
      var round := OneRound(d, Run(d, s, before), AfterRounds(d, l, arriving, n - 1), first(n - 1), first(n));
      RunAppend(d, s, before, round);
      actions := before + round;
    }
  }

  // ---------------------------------------------------------------- everything settles

  /** The steps that use up what others have started: commits, their callbacks, falling
      watermarks and the read loop. */
  predicate Finishing(a: Action) {
    || a.CommitRequest? || a.CommitResponse? || a.ScheduledRequest? || a.ScheduledResponse?
    || a.Below? || a.Decode? || a.CleanUp?
  }

  function Work(a: Action): nat {
    if Finishing(a) then 1 else 0
  }

  /** What the application, the client and the watermarks can add. */
  function Added(a: Action): nat {
    match a
    case Receive => 4
    case Send(_) => 5
    case End(_) => 5
    case Above => 5
    case OnRead(data) => 2 * |data| + 2
    case ReadHandshake(Upgrade(leftover)) => |leftover|
    case _ => 0
  }

  /** Bytes not decoded, and bytes not taken out of Envoy. */
  function Unread(i: Input): nat {
    (if i.done <= |i.arrived| then |i.arrived| - i.done else 0)
    + (if i.taken <= |i.arrived| then |i.arrived| - i.taken else 0)
  }

  function Remaining(s: State): nat {
    4 * s.reqOwed + 3 * s.reqCommits + 5 * s.respOwed + 4 * s.respCommits + 5 * s.level + Unread(s.input)
    + match s.reading
      case Idle => 0
      case Closing => 1
      case Decoding => 2
  }

  lemma RoundProgresses(d: Decoder, s: State)
    requires Sound(d) && Safe(s) && InputInv(d, s) && s.reading.Decoding?
    ensures Remaining(Round(s, Verdict(d, s.input))) < Remaining(s)
  {
    var u := Verdict(d, s.input);
    if !u.NeedMore? {
      SeenBefore(d, Decoded(s.input), Ahead(s.input), []);
      AdvancedIsLess(s.input, u);
    } else if s.input.taken < |s.input.arrived| {
      PulledIsLess(s.input);
    }
  }

  lemma AdvancedIsLess(i: Input, u: Unit)
    requires i.done <= i.taken <= |i.arrived| && 0 < SizeOf(u) <= |Ahead(i)|
    ensures Unread(Advanced(i, u)) < Unread(i)
  {
  }

  lemma PulledIsLess(i: Input)
    requires i.done <= i.taken < |i.arrived|
    ensures Unread(Pulled(i)) < Unread(i)
  {
  }

  lemma ArrivedIsMore(i: Input, data: Bytes)
    requires i.done <= i.taken <= |i.arrived|
    ensures Unread(Arrived(i, data)) == Unread(i) + 2 * |data|
  {
  }

  lemma HandshakeAdds(s: State, outcome: Handshake)
    requires s.input.done <= s.input.taken <= |s.input.arrived|
    ensures Remaining(AfterHandshake(s, outcome)) <= Remaining(s) + Added(ReadHandshake(outcome))
  {
  }

  lemma OnReadAdds(s: State, data: Bytes)
    requires s.input.done <= s.input.taken <= |s.input.arrived| && s.reading.Idle?
    ensures Remaining(AfterOnRead(s, data)) <= Remaining(s) + Added(OnRead(data))
  {
    ArrivedIsMore(s.input, data);
  }

  lemma PostedAdds(s: State, e: SendEvent)
    ensures Remaining(Posted(s, e)) <= Remaining(s) + 5
  {
  }

  lemma CallAdds(s: State, m: Message)
    ensures Remaining(AfterCall(s, m)) <= Remaining(s) + Added(Send(m))
  {
    var (sender, sent, answer) := Called(s.sender, m, s.nextSend);
    var s' := AfterCall(s, m);
    SameRemaining(s, s.(sender := sender, nextSend := s'.nextSend, said := s'.said));
    if sent.Some? {
      PostedAdds(s.(sender := sender, nextSend := s'.nextSend, said := s'.said), sent.value);
    }
  }

  lemma SameRemaining(s: State, s': State)
    requires s'.reqOwed == s.reqOwed && s'.reqCommits == s.reqCommits
    requires s'.respOwed == s.respOwed && s'.respCommits == s.respCommits
    requires s'.level == s.level && s'.input == s.input && s'.reading == s.reading
    ensures Remaining(s') == Remaining(s)
  {
  }

  lemma RequestProgresses(s: State)
    requires Enabled(s, ScheduledRequest)
    ensures Remaining(Apply(s, ScheduledRequest)) < Remaining(s)
  {
  }

  lemma ResponseProgresses(s: State)
    requires Enabled(s, ScheduledResponse)
    ensures Remaining(Apply(s, ScheduledResponse)) < Remaining(s)
  {
  }

  lemma CloseProgresses(s: State, ended: bool)
    requires s.reading.Closing?
    ensures Remaining(CloseFinished(CleanedUp(s), ended)) < Remaining(s)
  {
  }

  lemma OtherAdds(s: State, a: Action)
    requires Enabled(s, a) && !a.Send? && !a.OnRead? && !a.ReadHandshake? && !a.Decode? && !a.CleanUp?
    requires !a.ScheduledRequest? && !a.ScheduledResponse?
    ensures Remaining(Apply(s, a)) + Work(a) <= Remaining(s) + Added(a)
  {
  }

  /** Every step but a round of the loop. */
  lemma StepAdds(s: State, a: Action)
    requires Enabled(s, a) && !a.Decode? && s.input.done <= s.input.taken <= |s.input.arrived|
    ensures Remaining(Apply(s, a)) + Work(a) <= Remaining(s) + Added(a)
  {
    match a
    case OnRead(data) => OnReadAdds(s, data);
    case ReadHandshake(outcome) => HandshakeAdds(s, outcome);
    case Send(message) => CallAdds(s, message);
    case ScheduledRequest => RequestProgresses(s);
    case ScheduledResponse => ResponseProgresses(s);
    case CleanUp(ended) => CloseProgresses(s, ended);
    case _ => OtherAdds(s, a);
  }

  lemma StepProgresses(d: Decoder, s: State, a: Action)
    requires Sound(d) && Safe(s) && InputInv(d, s) && Allowed(d, s, a)
    ensures Remaining(Apply(s, a)) + Work(a) <= Remaining(s) + Added(a)
  {
    if a.Decode? {
      RoundProgresses(d, s);
    } else {
      StepAdds(s, a);
    }
  }

  lemma {:induction false} RunProgresses(d: Decoder, s: State, actions: seq<Action>)
    requires Sound(d) && Inv(d, s, 0) && CanRun(d, s, actions)
    ensures Remaining(Run(d, s, actions)) + Sum(actions, Work) <= Remaining(s) + Sum(actions, Added)
    decreases |actions|
  {
    if actions != [] {
      StepProgresses(d, s, actions[0]);
      StepKeepsInv(d, s, actions[0], 0);
      RunProgresses(d, Apply(s, actions[0]), actions[1..]);
    }
  }

  /** Nothing is on its way. */
  predicate Settled(s: State) {
    s.reqOwed == s.reqCommits == s.respOwed == s.respCommits == s.level == 0 && s.reading.Idle?
  }

  ghost predicate CanFinish(d: Decoder, s: State) {
    exists a :: Allowed(d, s, a) && Finishing(a)
  }

  lemma SettledOrNot(d: Decoder, s: State)
    requires !s.destroyed && !Settled(s)
    ensures CanFinish(d, s)
  {
    var a := if s.reading.Decoding? then Decode(Verdict(d, s.input))
             else if s.reading.Closing? then CleanUp(false)
             else if s.reqOwed > 0 then CommitRequest
             else if s.respOwed > 0 then CommitResponse
             else if s.reqCommits > 0 then ScheduledRequest
             else if s.respCommits > 0 then ScheduledResponse
             else Below;
    assert Allowed(d, s, a) && Finishing(a);
  }

  lemma BoundFromStart(d: Decoder, actions: seq<Action>)
    requires Sound(d) && CanRun(d, START, actions)
    ensures Sum(actions, Work) <= Sum(actions, Added)
  {
    StartInv(d, 0);
    NoneRemains();
    RunProgresses(d, START, actions);
  }

  lemma NoneRemains()
    ensures Remaining(START) == 0
  {
  }

  lemma DestroyedIsEmpty(s: State)
    requires Safe(s) && s.destroyed
    ensures Queue(s.send) == [] && Queue(s.recv) == []
  {
  }

  /** In every run, commits, callbacks and rounds of the loop number at most four for a receive,
      five for a message, the end of the application or a risen watermark, and two for a byte
      and for a read; so they come to an end when the others do. Until then one of them is
      possible, unless the connection is gone, and then nothing waits. */
  lemma EverythingSettles(d: Decoder, actions: seq<Action>)
    requires Sound(d) && CanRun(d, START, actions)
    ensures Sum(actions, Work) <= Sum(actions, Added)
    ensures var s := Run(d, START, actions);
            && (s.destroyed ==> Queue(s.send) == [] && Queue(s.recv) == [])
            && (!s.destroyed && !Settled(s) ==> CanFinish(d, s))
  {
    var s := Run(d, START, actions);
    BoundFromStart(d, actions);
    RunSafe(d, actions);
    if s.destroyed {
      DestroyedIsEmpty(s);
    } else if !Settled(s) {
      SettledOrNot(d, s);
    }
  }
}
