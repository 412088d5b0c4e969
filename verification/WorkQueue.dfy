/** The queue that hands WSGI requests to worker threads, waking the most recently idle one. */
module WorkQueues {
  import opened Basics

  /** What the mutex guards. `P` identifies a waiting thread: its parker in the class, its
      index in the interleaved model. */
  datatype Guarded<T, P> = Guarded(items: seq<T>, idle: seq<P>, closed: bool)

  datatype PopOutcome<T> = Item(value: T) | NoMore | MustWait

  function Pushed<T, P>(q: Guarded<T, P>, item: T): Guarded<T, P> {
    q.(items := q.items + [item],
       idle := if q.idle == [] then [] else q.idle[..|q.idle| - 1])
  }

  /** The thread a push must notify after releasing the lock. */
  function ToNotify<T, P>(q: Guarded<T, P>): Option<P> {
    if q.idle == [] then None else Some(q.idle[|q.idle| - 1])
  }

  function Outcome<T, P>(q: Guarded<T, P>): PopOutcome<T> {
    if q.items != [] then Item(q.items[0]) else if q.closed then NoMore else MustWait
  }

  function Popped<T, P>(q: Guarded<T, P>, me: P): Guarded<T, P> {
    match Outcome(q)
    case Item(_) => q.(items := q.items[1..])
    case NoMore => q
    case MustWait => q.(idle := q.idle + [me])
  }

  function Shut<T, P>(q: Guarded<T, P>): Guarded<T, P> {
    q.(idle := [], closed := true)
  }

  class Parker {
    var notified: bool
    var token: bool  // the permit of the thread's park and unpark

    constructor ()
      ensures !notified && !token
    {
      notified, token := false, false;
    }

    method Notify()
      modifies this
      ensures notified && token
    {
      notified := true;
      token := true;
    }
  }

  class WorkQueue<T> {
    var items: seq<T>
    var idle: seq<Parker>
    var closed: bool

    ghost function View(): Guarded<T, Parker>
      reads this
    {
      Guarded(items, idle, closed)
    }

    constructor ()
      ensures View() == Guarded([], [], false)
    {
      items, idle, closed := [], [], false;
    }

    method Push(item: T)
      modifies this, idle
      ensures View() == Pushed(old(View()), item)
      ensures forall p <- old(idle) ::
                if Some(p) == ToNotify(old(View())) then p.notified && p.token
                else p.notified == old(p.notified) && p.token == old(p.token)
    {
      items := items + [item];
      if idle != [] {
        var parker := idle[|idle| - 1];
        idle := idle[..|idle| - 1];
        parker.Notify();
      }
    }

    /** One pass through the locked part of `pop`, for the thread that owns `me`. */
    method TryPop(me: Parker) returns (r: PopOutcome<T>)
      modifies this, me`notified
      ensures r == Outcome(old(View())) && View() == Popped(old(View()), me)
      ensures me.notified == (old(me.notified) && !r.MustWait?)
    {
      if items != [] {
        r := Item(items[0]);
        items := items[1..];
        return;
      }
      if closed {
        return NoMore;
      }
      me.notified := false;
      idle := idle + [me];
      r := MustWait;
    }

    method Close()
      modifies this, idle
      ensures View() == Shut(old(View()))
      ensures forall p <- old(idle) :: p.notified && p.token
    {
      closed := true;
      var waiting := idle;
      idle := [];
      for k := 0 to |waiting|
        invariant View() == Shut(old(View())) && waiting == old(idle)
        invariant forall j | 0 <= j < k :: waiting[j].notified && waiting[j].token
      {
        waiting[k].Notify();
      }
    }
  }

  /** Where a worker is: outside `pop`, about to lock for the first time, loading the flag,
      inside `park`, about to lock again after being notified, or told there is no more. */
  datatype Pc = Busy | Entering | Checking | Parking | Relocking | Finished

  /** `owedStores` and `owedUnparks` count notifications that already took this thread off the
      idle list but have not yet stored the flag, or not yet unparked. `since` is the time
      the thread was last listed as idle. */
  datatype Thread = Thread(
    pc: Pc, notified: bool, token: bool, owedStores: nat, owedUnparks: nat, since: nat)

  datatype State<T> = State(
    q: Guarded<T, nat>, threads: seq<Thread>, clock: nat, pushed: seq<T>, popped: seq<T>)

  function Start<T>(workers: nat): State<T> {
    State(Guarded([], [], false), seq(workers, _ => Thread(Busy, false, false, 0, 0, 0)), 0, [], [])
  }

  datatype Action<T> =
    | Push(item: T) | Close
    | Store(t: nat)     // a notifier sets the flag of `t`
    | Unpark(t: nat)    // the same notifier unparks `t`, later
    | Call(t: nat)      // `t` calls `pop`
    | Lock(t: nat)
    | Check(t: nat)
    | Park(t: nat)      // `park` returns because of a token, which it consumes
    | Spurious(t: nat)  // `park` returns for no reason

  predicate Enabled<T>(s: State<T>, a: Action<T>) {
    a.Push? || a.Close? || (a.t < |s.threads| && ThreadEnabled(s.threads[a.t], a))
  }

  predicate ThreadEnabled<T>(th: Thread, a: Action<T>) {
    match a
    case Store(_) => th.owedStores > 0
    case Unpark(_) => th.owedUnparks > 0
    case Call(_) => th.pc.Busy?
    case Lock(_) => th.pc.Entering? || th.pc.Relocking?
    case Check(_) => th.pc.Checking?
    case Park(_) => th.pc.Parking? && th.token
    case _ => th.pc.Parking?
  }

  function Owe(th: Thread): Thread {
    th.(owedStores := th.owedStores + 1)
  }

  /** The threads after a notification of every thread in `woken` is owed. */
  function OweAll(threads: seq<Thread>, woken: seq<nat>): seq<Thread> {
    seq(|threads|, t requires 0 <= t < |threads| => if t in woken then Owe(threads[t]) else threads[t])
  }

  function Apply<T>(s: State<T>, a: Action<T>): State<T>
    requires Enabled(s, a)
  {
    if a.Push? then
      s.(q := Pushed(s.q, a.item), pushed := s.pushed + [a.item],
         threads := if s.q.idle == [] then s.threads
                    else OweAll(s.threads, [s.q.idle[|s.q.idle| - 1]]))
    else if a.Close? then s.(q := Shut(s.q), threads := OweAll(s.threads, s.q.idle))
    else if a.Lock? then Locked(s, a.t)
    else s.(threads := s.threads[a.t := ThreadStep(s.threads[a.t], a)])
  }

  function Locked<T>(s: State<T>, t: nat): State<T>
    requires t < |s.threads|
  {
    var q := Popped(s.q, t);
    var th := s.threads[t];
    match Outcome(s.q)
    case Item(value) =>
      s.(q := q, popped := s.popped + [value], threads := s.threads[t := th.(pc := Busy)])
    case NoMore => s.(threads := s.threads[t := th.(pc := Finished)])
    case MustWait =>
      s.(q := q, clock := s.clock + 1,
         threads := s.threads[t := th.(pc := Checking, notified := false, since := s.clock)])
  }

  function ThreadStep<T>(th: Thread, a: Action<T>): Thread
    requires a.Store? ==> th.owedStores > 0
    requires a.Unpark? ==> th.owedUnparks > 0
  {
    match a
    case Store(_) =>
      th.(notified := true, owedStores := th.owedStores - 1, owedUnparks := th.owedUnparks + 1)
    case Unpark(_) => th.(token := true, owedUnparks := th.owedUnparks - 1)
    case Call(_) => th.(pc := Entering)
    case Check(_) => th.(pc := if th.notified then Relocking else Parking)
    case Park(_) => th.(pc := Checking, token := false)
    case Spurious(_) => th.(pc := Checking)
    case _ => th
  }

  predicate CanRun<T>(s: State<T>, actions: seq<Action<T>>)
    decreases |actions|
  {
    actions == [] || (Enabled(s, actions[0]) && CanRun(Apply(s, actions[0]), actions[1..]))
  }

  function Run<T>(s: State<T>, actions: seq<Action<T>>): State<T>
    requires CanRun(s, actions)
    decreases |actions|
  {
    if actions == [] then s else Run(Apply(s, actions[0]), actions[1..])
  }

  predicate Waiting(th: Thread) {
    th.pc.Checking? || th.pc.Parking?
  }

  predicate ComingBack(th: Thread, listed: bool) {
    th.pc.Relocking? || (Waiting(th) && !listed)
  }

  /** The threads taken off the idle list that have not locked again yet. */
  function TakenOff<T>(s: State<T>): set<nat> {
    set t: nat | t < |s.threads| && ComingBack(s.threads[t], t in s.q.idle)
  }

  /** A listed thread is waiting with its flag clear and nothing owed; a waiting thread is
      listed, or owed a store, or notified; and a thread inside `park` with its flag set has
      a token or is owed an unpark. */
  predicate ThreadOk(th: Thread, listed: bool) {
    && (listed ==> Waiting(th) && !th.notified && th.owedStores == 0)
    && th.owedStores <= 1
    && (th.owedStores == 1 ==> Waiting(th) && !th.notified)
    && (Waiting(th) ==> listed || th.owedStores == 1 || th.notified)
    && (th.pc.Parking? && th.notified ==> th.token || th.owedUnparks > 0)
  }

  ghost predicate IdleOk<T>(s: State<T>) {
    && (forall i | 0 <= i < |s.q.idle| ::
          s.q.idle[i] < |s.threads| && s.threads[s.q.idle[i]].since < s.clock)
    && (forall i, j | 0 <= i < j < |s.q.idle| ::
          s.threads[s.q.idle[i]].since < s.threads[s.q.idle[j]].since)
    && (s.q.closed ==> s.q.idle == [])
  }

  ghost predicate Inv<T>(s: State<T>) {
    && IdleOk(s)
    && (forall t: nat | t < |s.threads| :: ThreadOk(s.threads[t], t in s.q.idle))
    && (s.q.idle != [] ==> |s.q.items| <= |TakenOff(s)|)
    && s.pushed == s.popped + s.q.items
    && (!s.q.closed ==> forall t: nat | t < |s.threads| :: !s.threads[t].pc.Finished?)
  }

  /** A push takes the last listed thread, and no other, off the idle list. */
  lemma PushUnlistsLast<T>(s: State<T>, item: T)
    requires IdleOk(s) && s.q.idle != []
    ensures var woken := s.q.idle[|s.q.idle| - 1];
            var idle := Pushed(s.q, item).idle;
            woken !in idle && forall t: nat :: t in s.q.idle <==> t in idle || t == woken
  {
    var woken := s.q.idle[|s.q.idle| - 1];
    var idle := Pushed(s.q, item).idle;
    assert s.q.idle == idle + [woken];
  }

  lemma PushKeepsIdle<T>(s: State<T>, item: T)
    requires IdleOk(s)
    ensures IdleOk(Apply(s, Push(item)))
  {
    var s' := Apply(s, Push(item));
    assert |s'.threads| == |s.threads| && s'.q.idle <= s.q.idle;
    assert forall t: nat | t < |s.threads| :: s'.threads[t].since == s.threads[t].since;
  }

  lemma PushKeepsThreads<T>(s: State<T>, item: T, t: nat)
    requires Inv(s) && t < |s.threads|
    ensures ThreadOk(Apply(s, Push(item)).threads[t], t in Pushed(s.q, item).idle)
  {
    assert ThreadOk(s.threads[t], t in s.q.idle);
    if s.q.idle != [] {
      PushUnlistsLast(s, item);
    }
  }

  lemma PushMovesOff<T>(s: State<T>, item: T, t: nat)
    requires IdleOk(s) && s.q.idle != []
    requires ThreadOk(s.threads[s.q.idle[|s.q.idle| - 1]], true)
    ensures var woken := s.q.idle[|s.q.idle| - 1];
            t in TakenOff(Apply(s, Push(item))) <==> t in TakenOff(s) || t == woken
  {
    PushUnlistsLast(s, item);
  }

  /** In every run, a push with threads listed owes a notification to the one that became idle
      last, and to no other. */
  lemma PushWakesNewest<T>(workers: nat, actions: seq<Action<T>>, item: T, t: nat)
    requires CanRun(Start<T>(workers), actions) && t < |Run(Start<T>(workers), actions).threads|
    ensures var s := Run(Start<T>(workers), actions);
            var s' := Apply(s, Push(item));
            (s'.threads[t] != s.threads[t] <==>
               t in s.q.idle && forall u | u in s.q.idle && u < |s.threads| :: s.threads[u].since <= s.threads[t].since)
            && (s'.threads[t] != s.threads[t] ==> s'.threads[t] == Owe(s.threads[t]))
  {
    RunKeepsInv(Start<T>(workers), actions);
    NewestIsLast(Run(Start<T>(workers), actions), item, t);
  }

  lemma NewestIsLast<T>(s: State<T>, item: T, t: nat)
    requires IdleOk(s) && t < |s.threads|
    ensures var s' := Apply(s, Push(item));
            (s'.threads[t] != s.threads[t] <==>
               t in s.q.idle && forall u | u in s.q.idle && u < |s.threads| :: s.threads[u].since <= s.threads[t].since)
            && (s'.threads[t] != s.threads[t] ==> s'.threads[t] == Owe(s.threads[t]))
  {
    if s.q.idle != [] {
      var woken := s.q.idle[|s.q.idle| - 1];
      assert woken in s.q.idle && woken < |s.threads|;
    }
  }

  lemma OneMore(before: set<nat>, after: set<nat>, t: nat)
    requires t !in before && forall u :: u in after <==> u in before || u == t
    ensures |after| == |before| + 1
  {
    assert after == before + {t};
  }

  lemma PushTakesOff<T>(s: State<T>, item: T)
    requires Inv(s) && s.q.idle != []
    ensures |TakenOff(Apply(s, Push(item)))| == |TakenOff(s)| + 1
  {
    var woken := s.q.idle[|s.q.idle| - 1];
    var before, after := TakenOff(s), TakenOff(Apply(s, Push(item)));
    assert ThreadOk(s.threads[woken], woken in s.q.idle);
    forall t: nat
      ensures t in after <==> t in before || t == woken
    {
      PushMovesOff(s, item, t);
    }
    OneMore(before, after, woken);
  }

  lemma PushKeepsInv<T>(s: State<T>, item: T)
    requires Inv(s)
    ensures Inv(Apply(s, Push(item)))
  {
    var s' := Apply(s, Push(item));
    PushKeepsIdle(s, item);
    forall t: nat | t < |s'.threads| ensures ThreadOk(s'.threads[t], t in s'.q.idle) {
      PushKeepsThreads(s, item, t);
    }
    if s.q.idle != [] {
      PushTakesOff(s, item);
    }
  }

  lemma CloseKeepsInv<T>(s: State<T>)
    requires Inv(s)
    ensures Inv(Apply(s, Close))
  {
  }

  lemma LockKeepsInv<T>(s: State<T>, t: nat)
    requires Inv(s) && Enabled(s, Lock(t))
    ensures Inv(Apply(s, Lock(t)))
  {
    assert ThreadOk(s.threads[t], t in s.q.idle);
    match Outcome(s.q)
    case Item(_) => TakeKeepsInv(s, t);
    case NoMore =>
    case MustWait => WaitKeepsInv(s, t);
  }

  lemma TakeKeepsInv<T>(s: State<T>, t: nat)
    requires Inv(s) && Enabled(s, Lock(t)) && t !in s.q.idle && Outcome(s.q).Item?
    ensures Inv(Apply(s, Lock(t)))
  {
    var s' := Apply(s, Lock(t));
    assert TakenOff(s') == TakenOff(s) - {t};
    forall u: nat | u < |s'.threads| ensures ThreadOk(s'.threads[u], u in s'.q.idle) {
      assert ThreadOk(s.threads[u], u in s.q.idle);
    }
  }

  lemma WaitKeepsInv<T>(s: State<T>, t: nat)
    requires Inv(s) && Enabled(s, Lock(t)) && t !in s.q.idle && Outcome(s.q).MustWait?
    ensures Inv(Apply(s, Lock(t)))
  {
    var s' := Apply(s, Lock(t));
    forall u: nat | u < |s'.threads| ensures ThreadOk(s'.threads[u], u in s'.q.idle) {
      assert ThreadOk(s.threads[u], u in s.q.idle);
    }
  }

  lemma ThreadStepKeepsInv<T>(s: State<T>, a: Action<T>)
    requires Inv(s) && Enabled(s, a) && !a.Push? && !a.Close? && !a.Lock?
    ensures Inv(Apply(s, a))
  {
    var s' := Apply(s, a);
    ThreadStepKeepsOk(s.threads[a.t], a, a.t in s.q.idle);
    forall t: nat | t < |s.threads|
      ensures ThreadOk(s'.threads[t], t in s.q.idle)
    {
      assert ThreadOk(s.threads[t], t in s.q.idle);
    }
    assert TakenOff(s') == TakenOff(s);
  }

  lemma ThreadStepKeepsOk<T>(th: Thread, a: Action<T>, listed: bool)
    requires ThreadOk(th, listed) && ThreadEnabled(th, a) && !a.Push? && !a.Close? && !a.Lock?
    ensures var th' := ThreadStep(th, a);
            && ThreadOk(th', listed) && ComingBack(th', listed) == ComingBack(th, listed)
            && th'.since == th.since && (th'.pc.Finished? ==> th.pc.Finished?)
  {
  }

  lemma StepKeepsInv<T>(s: State<T>, a: Action<T>)
    requires Inv(s) && Enabled(s, a)
    ensures Inv(Apply(s, a))
  {
    match a
    case Push(item) => PushKeepsInv(s, item);
    case Close => CloseKeepsInv(s);
    case Lock(t) => LockKeepsInv(s, t);
    case _ => ThreadStepKeepsInv(s, a);
  }

  lemma {:induction false} RunKeepsInv<T>(s: State<T>, actions: seq<Action<T>>)
    requires Inv(s) && CanRun(s, actions)
    ensures Inv(Run(s, actions))
    decreases |actions|
  {
    if actions != [] {
      StepKeepsInv(s, actions[0]);
      RunKeepsInv(Apply(s, actions[0]), actions[1..]);
    }
  }

  /** For any number of workers and any interleaving: items come out once each in the order
      they went in, a push finds the most recently idle thread, a thread whose flag is set
      while it is inside `park` will be unparked, and while some thread is listed as idle the
      items never outnumber the threads already on their way to take one. */
  lemma NoLostWakeup<T>(workers: nat, actions: seq<Action<T>>)
    requires CanRun(Start<T>(workers), actions)
    ensures var s := Run(Start<T>(workers), actions);
            && s.pushed == s.popped + s.q.items
            && (s.q.idle != [] ==> |s.q.items| <= |TakenOff(s)|)
            && (forall t: nat | t < |s.threads| && s.threads[t].pc.Parking? && s.threads[t].notified ::
                  s.threads[t].token || s.threads[t].owedUnparks > 0)
            && (forall i | 0 <= i < |s.q.idle| :: s.q.idle[i] < |s.threads|)
            && (forall i | 0 <= i < |s.q.idle| - 1 ::
                  s.threads[s.q.idle[i]].since < s.threads[s.q.idle[|s.q.idle| - 1]].since)
  {
    var s := Run(Start<T>(workers), actions);
    RunKeepsInv(Start<T>(workers), actions);
    forall t: nat | t < |s.threads| && s.threads[t].pc.Parking? && s.threads[t].notified
      ensures s.threads[t].token || s.threads[t].owedUnparks > 0
    {
      assert ThreadOk(s.threads[t], t in s.q.idle);
    }
  }

  /** The steps of notifiers and of threads inside `pop`, without spurious wakeups. */
  predicate Internal<T>(a: Action<T>) {
    a.Store? || a.Unpark? || a.Lock? || a.Check? || a.Park?
  }

  ghost predicate Quiet<T(!new)>(s: State<T>) {
    forall a: Action<T> :: Enabled(s, a) ==> !Internal(a)
  }

  lemma QuietThread<T(!new)>(s: State<T>, t: nat)
    requires Inv(s) && (Quiet(s) || Stuck(s)) && t < |s.threads|
    ensures s.threads[t].pc.Busy? || s.threads[t].pc.Finished? || t in s.q.idle
    ensures t !in TakenOff(s)
  {
    assert ThreadOk(s.threads[t], t in s.q.idle);
    assert Internal<T>(Store(t)) && !Enabled(s, Store(t));
    assert Internal<T>(Unpark(t)) && !Enabled(s, Unpark(t));
    assert Internal<T>(Lock(t)) && !Enabled(s, Lock(t));
    assert Internal<T>(Check(t)) && !Enabled(s, Check(t));
    assert Internal<T>(Park(t)) && !Enabled(s, Park(t));
  }

  /** When nothing is left to run inside the queue, a thread that waits means the queue is
      open and has no items; so once it is closed no thread waits. */
  lemma QuietMeansServed<T(!new)>(workers: nat, actions: seq<Action<T>>)
    requires CanRun(Start<T>(workers), actions)
    requires Quiet(Run(Start<T>(workers), actions))
    ensures var s := Run(Start<T>(workers), actions);
            forall t: nat | t < |s.threads| ::
              || s.threads[t].pc.Busy?
              || s.threads[t].pc.Finished?
              || (t in s.q.idle && s.q.items == [] && !s.q.closed)
  {
    var s := Run(Start<T>(workers), actions);
    RunKeepsInv(Start<T>(workers), actions);
    forall t: nat | t < |s.threads|
      ensures s.threads[t].pc.Busy? || s.threads[t].pc.Finished?
              || (t in s.q.idle && s.q.items == [] && !s.q.closed)
    {
      QuietThread(s, t);
      if t in s.q.idle {
        forall u | u in TakenOff(s) ensures false { QuietThread(s, u); }
        assert TakenOff(s) == {};
      }
    }
  }

  /** What a thread still has to do once the queue is closed. */
  function Effort(th: Thread): nat {
    4 * th.owedStores + 3 * th.owedUnparks + (if th.token then 2 else 0) +
    match th.pc
    case Finished => 0
    case Entering => 1
    case Relocking => 1
    case Busy => 2
    case Parking => 2
    case Checking => 3
  }

  function Remaining<T>(s: State<T>): nat {
    2 * |s.q.items| + Sum(s.threads, Effort)
  }

  lemma ClosedStepProgresses<T>(s: State<T>, a: Action<T>)
    requires Inv(s) && s.q.closed && Enabled(s, a) && (Internal(a) || a.Call?)
    ensures Apply(s, a).q.closed && Remaining(Apply(s, a)) < Remaining(s)
  {
    SumUpdate(s.threads, Effort, a.t, Apply(s, a).threads[a.t]);
    if a.Lock? {
      assert Outcome(s.q).Item? || Outcome(s.q).NoMore?;
    } else {
      ThreadProgresses(s.threads[a.t], a);
    }
  }

  lemma ThreadProgresses<T>(th: Thread, a: Action<T>)
    requires ThreadEnabled(th, a) && (Internal(a) || a.Call?) && !a.Lock?
    ensures Effort(ThreadStep(th, a)) < Effort(th)
  {
  }

  /** Steps of workers and notifiers count; a push or a spurious wakeup can add to them. */
  function Work<T>(a: Action<T>): nat {
    if Internal(a) || a.Call? then 1 else 0
  }

  function Added<T>(a: Action<T>): nat {
    if a.Push? then 2 else if a.Spurious? then 1 else 0
  }

  lemma ClosedStep<T>(s: State<T>, a: Action<T>)
    requires Inv(s) && s.q.closed && Enabled(s, a)
    ensures Apply(s, a).q.closed && Remaining(Apply(s, a)) + Work(a) <= Remaining(s) + Added(a)
  {
    var s' := Apply(s, a);
    if Internal(a) || a.Call? {
      ClosedStepProgresses(s, a);
    } else if a.Spurious? {
      SumUpdate(s.threads, Effort, a.t, s'.threads[a.t]);
    } else {
      assert s'.threads == s.threads;
    }
  }

  /** No worker gave up before the items it owed were taken. */
  ghost predicate NoneLeftBehind<T>(s: State<T>, owed: seq<T>) {
    && owed <= s.pushed
    && (owed <= s.popped || forall t: nat | t < |s.threads| :: !s.threads[t].pc.Finished?)
  }

  lemma StepLeavesNone<T>(s: State<T>, a: Action<T>, owed: seq<T>)
    requires Inv(s) && Enabled(s, a) && NoneLeftBehind(s, owed)
    ensures NoneLeftBehind(Apply(s, a), owed)
  {
    if a.Lock? && Outcome(s.q).NoMore? {
      assert s.popped + [] == s.popped;
    }
  }

  ghost predicate Stuck<T(!new)>(s: State<T>) {
    forall a: Action<T> :: Enabled(s, a) ==> !Internal(a) && !a.Call?
  }

  ghost predicate AllDone<T>(s: State<T>, owed: seq<T>) {
    && owed <= s.popped
    && forall t: nat | t < |s.threads| :: s.threads[t].pc.Finished?
  }

  lemma StuckMeansDone<T(!new)>(s: State<T>, owed: seq<T>)
    requires Inv(s) && s.q.closed && NoneLeftBehind(s, owed) && Stuck(s) && s.threads != []
    ensures AllDone(s, owed)
  {
    forall t: nat | t < |s.threads| ensures s.threads[t].pc.Finished? {
      QuietThread(s, t);
      assert !Enabled(s, Call(t));
    }
    assert s.threads[0].pc.Finished?;
  }

  lemma {:induction false} ClosedRun<T(!new)>(s: State<T>, actions: seq<Action<T>>, owed: seq<T>)
    requires Inv(s) && s.q.closed && NoneLeftBehind(s, owed) && CanRun(s, actions)
    ensures Sum(actions, Work<T>) <= Remaining(s) + Sum(actions, Added<T>)
    ensures var s' := Run(s, actions);
            && s'.q.closed && s'.q.idle == [] && |s'.threads| == |s.threads|
            && NoneLeftBehind(s', owed)
            && (Stuck(s') && s.threads != [] ==> AllDone(s', owed))
    decreases |actions|
  {
    if actions == [] {
      if Stuck(s) && s.threads != [] {
        StuckMeansDone(s, owed);
      }
    } else {
      StepKeepsInv(s, actions[0]);
      ClosedStep(s, actions[0]);
      StepLeavesNone(s, actions[0], owed);
      ClosedRun(Apply(s, actions[0]), actions[1..], owed);
    }
  }

  lemma ClosingLeavesNone<T>(s: State<T>)
    requires Inv(s) && !s.q.closed
    ensures var closing := Apply(s, Close);
            && Inv(closing) && closing.q.closed && closing.pushed == s.pushed
            && |closing.threads| == |s.threads| && NoneLeftBehind(closing, s.pushed)
  {
    StepKeepsInv(s, Close);
  }

  /** Close the queue at any moment. Whatever is pushed or wakes spuriously afterwards, workers
      and notifiers take a bounded number of steps, plus two for a push and one for a spurious
      wakeup. No thread is listed as idle again, a worker is told there is no more only when
      everything pushed before the close was taken, and the run can only stop once every worker
      has been told so. */
  lemma CloseDrains<T(!new)>(workers: nat, before: seq<Action<T>>, after: seq<Action<T>>)
    requires workers > 0 && CanRun(Start<T>(workers), before) && Close !in before
    requires CanRun(Apply(Run(Start<T>(workers), before), Close), after)
    ensures var closing := Apply(Run(Start<T>(workers), before), Close);
            var s := Run(closing, after);
            && Sum(after, Work<T>) <= Remaining(closing) + Sum(after, Added<T>)
            && s.q.idle == []
            && (forall t: nat | t < |s.threads| && s.threads[t].pc.Finished? :: closing.pushed <= s.popped)
            && (Stuck(s) ==> AllDone(s, closing.pushed))
  {
    var s := Run(Start<T>(workers), before);
    RunKeepsInv(Start<T>(workers), before);
    OpenWithoutClose(Start<T>(workers), before);
    ClosingLeavesNone(s);
    ClosedRun(Apply(s, Close), after, s.pushed);
  }

  lemma {:induction false} OpenWithoutClose<T>(s: State<T>, actions: seq<Action<T>>)
    requires CanRun(s, actions) && !s.q.closed && Close !in actions
    ensures !Run(s, actions).q.closed && |Run(s, actions).threads| == |s.threads|
    decreases |actions|
  {
    if actions != [] {
      assert actions[0] in actions;
      OpenWithoutClose(Apply(s, actions[0]), actions[1..]);
    }
  }
}
