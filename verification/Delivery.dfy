/** How events travel from Python threads to a filter callback.

    A sender puts an event on the bridge and, as a separate step, commits a scheduled
    callback. The callback runs on the Envoy thread and drains the whole bridge, unless
    the downstream write buffer is above its watermark; it then handles the drained
    events one by one while senders, watermark callbacks and the end of the stream
    interleave with it. Both HTTP filters use this protocol for response events. */
module Delivery {
  import opened Basics
  import opened EventBridges

  datatype State<E> = State(
    bridge: Channel<E>,
    batch: seq<E>,      // drained by the running callback, not handled yet
    owed: nat,          // sends whose commit has not happened yet
    commits: nat,       // callbacks scheduled and not run yet
    level: nat,         // how many times the watermark rose without falling back
    accepted: seq<E>,   // every event the bridge took, in order
    handled: seq<E>,    // every event the filter handled, in order
    dropped: seq<E>,    // events still waiting when the bridge was closed
    rejected: seq<E>)   // events sent after that

  function Start<E>(): State<E> {
    State(Open([]), [], 0, 0, 0, [], [], [], [])
  }

  datatype Action<E> = Send(event: E) | Commit | Scheduled | Handle | Close | Above | Below

  /** Only one callback runs at a time, and the watermark never falls before it rose. */
  predicate Enabled<E>(s: State<E>, a: Action<E>) {
    match a
    case Send(_) => true
    case Commit => s.owed > 0
    case Scheduled => s.commits > 0 && s.batch == []
    case Handle => s.batch != []
    case Close => true
    case Above => true
    case Below => s.level > 0
  }

  function Apply<E>(s: State<E>, a: Action<E>): State<E>
    requires Enabled(s, a)
  {
    match a
    case Send(event) =>
      if s.bridge.Shut? then s.(rejected := s.rejected + [event])
      else s.(bridge := Sent(s.bridge, event), owed := s.owed + 1, accepted := s.accepted + [event])
    case Commit => s.(owed := s.owed - 1, commits := s.commits + 1)
    case Scheduled =>
      if s.level == 0 then s.(commits := s.commits - 1, batch := Queue(s.bridge), bridge := Drained(s.bridge))
      else s.(commits := s.commits - 1)
    case Handle => s.(batch := s.batch[1..], handled := s.handled + [s.batch[0]])
    case Close => s.(bridge := Shut, dropped := s.dropped + Queue(s.bridge))
    case Above => s.(level := s.level + 1)
    case Below =>
      s.(level := s.level - 1, commits := if s.level == 1 then s.commits + 1 else s.commits)
  }

  predicate CanRun<E>(s: State<E>, actions: seq<Action<E>>)
    decreases |actions|
  {
    actions == [] || (Enabled(s, actions[0]) && CanRun(Apply(s, actions[0]), actions[1..]))
  }

  function Run<E>(s: State<E>, actions: seq<Action<E>>): State<E>
    requires CanRun(s, actions)
    decreases |actions|
  {
    if actions == [] then s else Run(Apply(s, actions[0]), actions[1..])
  }

  /** Every accepted event is in exactly one place, and the places keep the order. */
  ghost predicate Conserved<E>(s: State<E>) {
    && s.accepted == s.handled + s.batch + Queue(s.bridge) + s.dropped
    && (s.bridge.Open? ==> s.dropped == [] && s.rejected == [])
  }

  /** A waiting event always has a callback coming, or a watermark that must fall first. */
  predicate NotStranded<E>(s: State<E>) {
    Queue(s.bridge) != [] ==> s.owed > 0 || s.commits > 0 || s.level > 0
  }

  ghost predicate Inv<E>(s: State<E>) {
    Conserved(s) && NotStranded(s)
  }

  lemma StepKeepsInv<E>(s: State<E>, a: Action<E>)
    requires Inv(s) && Enabled(s, a)
    ensures Inv(Apply(s, a))
  {
    if a.Handle? {
      assert s.batch == [s.batch[0]] + s.batch[1..];
    }
  }

  /** What was handled comes first among what was accepted. */
  lemma HandledFirst<E>(s: State<E>)
    requires Conserved(s)
    ensures s.accepted == s.handled + (s.batch + Queue(s.bridge) + s.dropped)
  {
    Assoc(s.handled, s.batch, Queue(s.bridge));
    Assoc(s.handled, s.batch + Queue(s.bridge), s.dropped);
  }

  /** In every run: order and content are preserved and no event is stranded. */
  lemma {:induction false} RunKeepsInv<E>(s: State<E>, actions: seq<Action<E>>)
    requires Inv(s) && CanRun(s, actions)
    ensures Inv(Run(s, actions))
    decreases |actions|
  {
    if actions != [] {
      StepKeepsInv(s, actions[0]);
      RunKeepsInv(Apply(s, actions[0]), actions[1..]);
    }
  }

  lemma RunFromStart<E>(actions: seq<Action<E>>)
    requires CanRun(Start<E>(), actions)
    ensures Inv(Run(Start<E>(), actions))
  {
    RunKeepsInv(Start<E>(), actions);
  }

  /** While the watermark stays up, nothing but the batch already drained is handled, and
      nothing waiting leaves the bridge unless it is closed. */
  lemma {:induction false} NoDrainAboveWatermark<E>(s: State<E>, actions: seq<Action<E>>)
    requires s.level > 0 && CanRun(s, actions)
    requires forall a :: a in actions ==> !a.Below?
    ensures var s' := Run(s, actions);
            && s'.handled + s'.batch == s.handled + s.batch
            && (Close !in actions ==> Queue(s.bridge) <= Queue(s'.bridge))
    decreases |actions|
  {
    if actions != [] {
      assert actions[0] in actions;
      var s1 := Apply(s, actions[0]);
      assert s1.handled + s1.batch == s.handled + s.batch;
      NoDrainAboveWatermark(s1, actions[1..]);
    }
  }

  /** A closed bridge never reopens: whatever runs afterwards, every later send is rejected. */
  lemma {:induction false} ClosedForGood<E>(s: State<E>, actions: seq<Action<E>>)
    requires s.bridge.Shut? && CanRun(s, actions)
    ensures Run(s, actions).bridge.Shut? && Run(s, actions).accepted == s.accepted
    decreases |actions|
  {
    if actions != [] {
      ClosedForGood(Apply(s, actions[0]), actions[1..]);
    }
  }

  /** The steps that only finish work already under way. */
  predicate Finishing<E>(a: Action<E>) {
    a.Commit? || a.Scheduled? || a.Handle? || a.Below?
  }

  function Work<E>(s: State<E>): nat {
    2 * s.owed + s.commits + 2 * s.level + 2 * |Queue(s.bridge)| + |s.batch|
  }

  /** Finishing steps cannot go on for ever, and as long as an accepted event is neither
      handled nor dropped, one of them is possible: every event is eventually handled
      or dropped once senders pause. */
  lemma EveryEventSettles<E>(s: State<E>)
    requires Inv(s)
    ensures forall a :: Enabled(s, a) && Finishing(a) ==> Work(Apply(s, a)) < Work(s)
    ensures s.accepted != s.handled + s.dropped ==>
              exists a: Action<E> :: Enabled(s, a) && Finishing(a)
  {
    if s.accepted != s.handled + s.dropped {
      if s.batch != [] {
        assert Enabled(s, Handle) && Finishing<E>(Handle);
      } else if s.owed > 0 {
        assert Enabled(s, Commit) && Finishing<E>(Commit);
      } else if s.commits > 0 {
        assert Enabled(s, Scheduled) && Finishing<E>(Scheduled);
      } else {
        assert Enabled(s, Below) && Finishing<E>(Below);
      }
    }
  }
}
