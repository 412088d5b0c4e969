/** Handing tasks from Envoy threads to an event loop: one wakeup for many tasks, a socket
    that may be full, and drains of a bounded number of tasks. */
module EventLoops {
  import opened Basics

  /** What the handle's mutex guards. */
  datatype Queue<T> = Queue(tasks: seq<T>, wakePending: bool)

  function Dispatched<T>(q: Queue<T>, task: T): Queue<T> {
    Queue(q.tasks + [task], true)
  }

  function BatchLength<T>(q: Queue<T>, batchSize: nat): nat {
    if |q.tasks| < batchSize then |q.tasks| else batchSize
  }

  function Batch<T>(q: Queue<T>, batchSize: nat): seq<T> {
    q.tasks[..BatchLength(q, batchSize)]
  }

  /** The queue stays marked as woken while tasks remain. */
  function AfterDrain<T>(q: Queue<T>, batchSize: nat): Queue<T> {
    var rest := q.tasks[BatchLength(q, batchSize)..];
    Queue(rest, if rest != [] then q.wakePending else false)
  }

  /** The size of the buffer the drainer reads wakeup bytes into. */
  const READ_SIZE: nat := 64

  /** A non-blocking socket pair, seen as the number of bytes between its ends. */
  class WakerSocket {
    const capacity: nat
    var bytes: nat

    ghost predicate Valid()
      reads this
    {
      0 < capacity && bytes <= capacity
    }

    constructor (capacity: nat)
      requires capacity > 0
      ensures Valid() && bytes == 0
    {
      this.capacity, bytes := capacity, 0;
    }

    /** A write to a full socket fails, and the failure is ignored. */
    method Write()
      requires Valid()
      modifies this
      ensures Valid() && bytes > 0 && bytes == old(bytes) + (if old(bytes) < capacity then 1 else 0)
    {
      if bytes < capacity {
        bytes := bytes + 1;
      }
    }

    /** Returns `None` instead of blocking. */
    method Read() returns (n: Option<nat>)
      requires Valid()
      modifies this
      ensures Valid()
      ensures n == if old(bytes) == 0 then None
                   else Some(if old(bytes) < READ_SIZE then old(bytes) else READ_SIZE)
      ensures bytes == old(bytes) - (if n.Some? then n.value else 0)
    {
      if bytes == 0 {
        return None;
      }
      var count := if bytes < READ_SIZE then bytes else READ_SIZE;
      bytes := bytes - count;
      n := Some(count);
    }
  }

  /** The queue of an event loop with its drainer. Without a socket the loop is woken by a
      message to a thread, which schedules a drain. */
  class LoopHandle<T> {
    var tasks: seq<T>
    var wakePending: bool
    const batchSize: nat
    const socket: WakerSocket?
    var messages: nat   // sent to the waker thread
    var scheduled: nat  // drains passed to `call_soon`
    var ran: seq<T>     // tasks run so far on the loop thread

    ghost predicate Valid()
      reads this, socket
    {
      batchSize > 0 && (socket != null ==> socket.Valid())
    }

    ghost function View(): Queue<T>
      reads this
    {
      Queue(tasks, wakePending)
    }

    /** Wakeups sent and not used up yet. */
    ghost function Wakeups(): nat
      reads this, socket
    {
      if socket != null then socket.bytes else messages
    }

    constructor (batchSize: nat, socket: WakerSocket?)
      requires batchSize > 0 && (socket != null ==> socket.Valid())
      ensures Valid() && View() == Queue([], false) && messages == scheduled == 0 && ran == []
      ensures this.socket == socket && this.batchSize == batchSize
    {
      this.batchSize, this.socket := batchSize, socket;
      tasks, wakePending, messages, scheduled, ran := [], false, 0, 0, [];
    }

    method Dispatch(task: T)
      requires Valid()
      modifies this`tasks, this`wakePending, this`messages, socket
      ensures Valid() && View() == Dispatched(old(View()), task)
      ensures if old(wakePending) then Wakeups() == old(Wakeups())
              else Wakeups() > 0 && old(Wakeups()) <= Wakeups() <= old(Wakeups()) + 1
    {
      tasks := tasks + [task];
      var wake := !wakePending;
      wakePending := true;
      if wake {
        if socket != null {
          socket.Write();
        } else {
          messages := messages + 1;
        }
      }
    }

    /** Reads every wakeup byte. */
    method ClearSocket()
      requires Valid()
      modifies socket
      ensures Valid() && (socket != null ==> socket.bytes == 0)
    {
      var reading := socket != null;
      while reading
        invariant Valid() && (reading ==> socket != null)
        invariant !reading && socket != null ==> socket.bytes == 0
        decreases reading, if socket != null then socket.bytes else 0
      {
        var n := socket.Read();
        reading := n.Some? && n.value == READ_SIZE;
      }
    }

    /** `LoopDrainer.__call__`, with nothing running beside it: every wakeup byte is read,
        one batch runs in order, and the loop is asked for another drain exactly when
        tasks remain. */
    method Drain()
      requires Valid()
      modifies this`tasks, this`wakePending, this`scheduled, this`ran, socket
      ensures Valid() && (socket != null ==> socket.bytes == 0)
      ensures View() == AfterDrain(old(View()), batchSize)
      ensures ran == old(ran) + Batch(old(View()), batchSize)
      ensures scheduled == old(scheduled) + (if tasks != [] then 1 else 0)
    {
      ClearSocket();
      var count := if |tasks| < batchSize then |tasks| else batchSize;
      var batch := tasks[..count];
      tasks := tasks[count..];
      if tasks == [] {
        wakePending := false;
      } else {
        scheduled := scheduled + 1;
      }
      RunTasks(batch);
    }

    method RunTasks(batch: seq<T>)
      modifies this`ran
      ensures ran == old(ran) + batch
    {
      for k := 0 to |batch|
        invariant ran == old(ran) + batch[..k]
      {
        GrowsBy(old(ran), batch, k);
        ran := ran + [batch[k]];
      }
      assert batch[..|batch|] == batch;
    }
  }

  /** Where the loop thread is: elsewhere, reading wakeup bytes, about to lock, about to ask
      for another drain, or running the tasks it took. */
  datatype Pc<T> = Elsewhere | Reading | Cleared | Rescheduling(batch: seq<T>) | Running(batch: seq<T>)

  datatype Config = Config(socket: bool, capacity: nat, batchSize: nat)

  ghost predicate ValidConfig(c: Config) {
    c.capacity > 0 && c.batchSize > 0
  }

  /** `writers` have released the lock and owe a wakeup. A socket loop receives it as a byte;
      other loops as a message to a thread that schedules a drain. */
  datatype State<T> = State(
    q: Queue<T>, writers: nat, bytes: nat, messages: nat, scheduled: nat, pc: Pc<T>,
    dispatched: seq<T>, ran: seq<T>, drains: nat, wakes: nat, clears: nat)

  function Start<T>(): State<T> {
    State(Queue([], false), 0, 0, 0, 0, Elsewhere, [], [], 0, 0, 0)
  }

  datatype Action<T> =
    | Dispatch(task: T) | Write | Forward
    | FireReader | FireScheduled | Read | Lock | Reschedule | RunTask | Return

  predicate Enabled<T>(c: Config, s: State<T>, a: Action<T>) {
    match a
    case Dispatch(_) => true
    case Write => s.writers > 0
    case Forward => s.messages > 0
    case FireReader => c.socket && s.pc.Elsewhere? && s.bytes > 0
    case FireScheduled => s.pc.Elsewhere? && s.scheduled > 0
    case Read => s.pc.Reading?
    case Lock => s.pc.Cleared?
    case Reschedule => s.pc.Rescheduling?
    case RunTask => s.pc.Running? && s.pc.batch != []
    case Return => s.pc.Running? && s.pc.batch == []
  }

  function ReadOnce<T>(s: State<T>): State<T> {
    if s.bytes == 0 then s.(pc := Cleared)
    else if s.bytes < READ_SIZE then s.(bytes := 0, pc := Cleared)
    else s.(bytes := s.bytes - READ_SIZE, pc := Reading)
  }

  function Locked<T>(c: Config, s: State<T>): State<T> {
    var q := AfterDrain(s.q, c.batchSize);
    var batch := Batch(s.q, c.batchSize);
    s.(q := q, pc := if q.tasks != [] then Rescheduling(batch) else Running(batch),
       drains := s.drains + 1,
       clears := if s.q.wakePending && !q.wakePending then s.clears + 1 else s.clears)
  }

  function Apply<T>(c: Config, s: State<T>, a: Action<T>): State<T>
    requires Enabled(c, s, a)
  {
    match a
    case Dispatch(task) =>
      s.(q := Dispatched(s.q, task), dispatched := s.dispatched + [task],
         writers := if s.q.wakePending then s.writers else s.writers + 1,
         wakes := if s.q.wakePending then s.wakes else s.wakes + 1)
    case Write =>
      if !c.socket then s.(writers := s.writers - 1, messages := s.messages + 1)
      else s.(writers := s.writers - 1, bytes := if s.bytes < c.capacity then s.bytes + 1 else s.bytes)
    case Forward => s.(messages := s.messages - 1, scheduled := s.scheduled + 1)
    case FireReader => ReadOnce(s)
    case FireScheduled =>
      s.(scheduled := s.scheduled - 1, pc := if c.socket then Reading else Cleared)
    case Read => ReadOnce(s)
    case Lock => Locked(c, s)
    case Reschedule => s.(scheduled := s.scheduled + 1, pc := Running(s.pc.batch))
    case RunTask => s.(ran := s.ran + [s.pc.batch[0]], pc := Running(s.pc.batch[1..]))
    case Return => s.(pc := Elsewhere)
  }

  predicate CanRun<T>(c: Config, s: State<T>, actions: seq<Action<T>>)
    decreases |actions|
  {
    actions == [] || (Enabled(c, s, actions[0]) && CanRun(c, Apply(c, s, actions[0]), actions[1..]))
  }

  function Run<T>(c: Config, s: State<T>, actions: seq<Action<T>>): State<T>
    requires CanRun(c, s, actions)
    decreases |actions|
  {
    if actions == [] then s else Run(c, Apply(c, s, actions[0]), actions[1..])
  }

  function InHand<T>(pc: Pc<T>): seq<T> {
    if pc.Rescheduling? || pc.Running? then pc.batch else []
  }

  /** Something is on its way that ends in a drain. */
  predicate DrainComing<T>(s: State<T>) {
    || s.writers > 0 || s.bytes > 0 || s.messages > 0 || s.scheduled > 0
    || s.pc.Reading? || s.pc.Cleared? || s.pc.Rescheduling?
  }

  ghost predicate Inv<T>(c: Config, s: State<T>) {
    && s.dispatched == s.ran + InHand(s.pc) + s.q.tasks
    && (s.q.tasks != [] ==> s.q.wakePending)
    && (s.q.wakePending ==> DrainComing(s))
    && s.wakes == s.clears + (if s.q.wakePending then 1 else 0)
    && s.bytes <= c.capacity && (!c.socket ==> s.bytes == 0)
  }

  lemma LockKeepsInv<T>(c: Config, s: State<T>)
    requires ValidConfig(c) && Inv(c, s) && s.pc.Cleared?
    ensures Inv(c, Locked(c, s))
  {
    var batch, q := Batch(s.q, c.batchSize), AfterDrain(s.q, c.batchSize);
    assert s.q.tasks == batch + q.tasks;
    assert s.ran + [] + (batch + q.tasks) == s.ran + batch + q.tasks;
  }

  lemma RunTaskKeepsInv<T>(c: Config, s: State<T>)
    requires Inv(c, s) && Enabled(c, s, RunTask)
    ensures Inv(c, Apply(c, s, RunTask))
  {
    assert s.pc.batch == [s.pc.batch[0]] + s.pc.batch[1..];
    assert s.ran + ([s.pc.batch[0]] + s.pc.batch[1..]) == s.ran + [s.pc.batch[0]] + s.pc.batch[1..];
  }

  lemma DispatchKeepsInv<T>(c: Config, s: State<T>, task: T)
    requires Inv(c, s)
    ensures Inv(c, Apply(c, s, Dispatch(task)))
  {
    var taken := s.ran + InHand(s.pc);
    assert taken + s.q.tasks + [task] == taken + (s.q.tasks + [task]);
  }

  lemma StepKeepsInv<T>(c: Config, s: State<T>, a: Action<T>)
    requires ValidConfig(c) && Inv(c, s) && Enabled(c, s, a)
    ensures Inv(c, Apply(c, s, a))
  {
    match a {
      case Lock => LockKeepsInv(c, s);
      case RunTask => RunTaskKeepsInv(c, s);
      case Dispatch(task) => DispatchKeepsInv(c, s, task);
      case _ =>
    }
  }

  lemma {:induction false} RunKeepsInv<T>(c: Config, s: State<T>, actions: seq<Action<T>>)
    requires ValidConfig(c) && Inv(c, s) && CanRun(c, s, actions)
    ensures Inv(c, Run(c, s, actions))
    decreases |actions|
  {
    if actions != [] {
      StepKeepsInv(c, s, actions[0]);
      RunKeepsInv(c, Apply(c, s, actions[0]), actions[1..]);
    }
  }

  /** In every run, for every waker, batch size and socket capacity: tasks run once each in
      dispatch order, waiting tasks always have a drain coming even if a wakeup byte could
      not be written, and threads are woken at most once more than the flag was cleared. */
  lemma NoTaskStranded<T>(c: Config, actions: seq<Action<T>>)
    requires ValidConfig(c) && CanRun(c, Start<T>(), actions)
    ensures var s := Run(c, Start<T>(), actions);
            && s.dispatched == s.ran + InHand(s.pc) + s.q.tasks
            && (s.q.tasks != [] ==> s.q.wakePending && DrainComing(s))
            && s.wakes <= s.clears + 1
  {
    RunKeepsInv(c, Start<T>(), actions);
  }

  function Rank<T>(pc: Pc<T>): nat {
    match pc
    case Elsewhere => 0
    case Reading => 5
    case Cleared => 4
    case Rescheduling(batch) => 8 + |batch|
    case Running(batch) => 1 + |batch|
  }

  function Remaining<T>(s: State<T>): nat {
    20 * |s.q.tasks| + 8 * s.writers + 7 * s.bytes + 7 * s.messages + 6 * s.scheduled + Rank(s.pc)
  }

  /** Without new dispatches every step makes progress, and until every dispatched task has
      run some step is possible: all of them run. */
  lemma EveryTaskRuns<T>(c: Config, actions: seq<Action<T>>)
    requires ValidConfig(c) && CanRun(c, Start<T>(), actions)
    ensures var s := Run(c, Start<T>(), actions);
            && (forall a :: Enabled(c, s, a) && !a.Dispatch? ==> Remaining(Apply(c, s, a)) < Remaining(s))
            && (s.ran != s.dispatched ==> exists a: Action<T> :: Enabled(c, s, a) && !a.Dispatch?)
  {
    var s := Run(c, Start<T>(), actions);
    RunKeepsInv(c, Start<T>(), actions);
    forall a | Enabled(c, s, a) && !a.Dispatch? ensures Remaining(Apply(c, s, a)) < Remaining(s) {
      StepProgresses(c, s, a);
    }
    if s.ran != s.dispatched {
      var a := Available(c, s);
    }
  }

  lemma StepProgresses<T>(c: Config, s: State<T>, a: Action<T>)
    requires ValidConfig(c) && Enabled(c, s, a) && !a.Dispatch?
    ensures Remaining(Apply(c, s, a)) < Remaining(s)
  {
  }

  lemma Available<T>(c: Config, s: State<T>) returns (a: Action<T>)
    requires Inv(c, s) && s.ran != s.dispatched
    ensures Enabled(c, s, a) && !a.Dispatch?
  {
    match s.pc
    case Reading => a := Read;
    case Cleared => a := Lock;
    case Rescheduling(_) => a := Reschedule;
    case Running(batch) => a := if batch != [] then RunTask else Return;
    case Elsewhere =>
      a := if s.writers > 0 then Write else if s.bytes > 0 then FireReader
           else if s.messages > 0 then Forward else FireScheduled;
  }

  /** How many tasks have been taken off the queue. */
  function TakenCount<T>(s: State<T>): nat {
    |s.ran| + |InHand(s.pc)|
  }

  lemma {:induction false} TakenGrows<T>(c: Config, s: State<T>, actions: seq<Action<T>>)
    requires ValidConfig(c) && CanRun(c, s, actions)
    ensures TakenCount(s) <= TakenCount(Run(c, s, actions)) && s.drains <= Run(c, s, actions).drains
    decreases |actions|
  {
    if actions != [] {
      TakenGrows(c, Apply(c, s, actions[0]), actions[1..]);
    }
  }

  /** `d` drains of up to `b` tasks took `count` tasks. Every drain was full while
      `d * b <= i`, so the task at index `i` was still waiting; the first `d` beyond that,
      which is `i / b + 1`, has taken it. */
  predicate TakenOnTime(b: nat, i: nat, d: nat, count: nat) {
    if d * b <= i then count == d * b else count > i
  }

  lemma FullDrain(b: nat, i: nat, d: nat, count: nat)
    requires b <= i && TakenOnTime(b, i - b, d, count)
    ensures TakenOnTime(b, i, d + 1, count + b)
  {
    assert (d + 1) * b == d * b + b;
  }

  lemma LastDrain(b: nat, i: nat, d: nat, count: nat)
    requires i < b && d > 0 && count > i
    ensures TakenOnTime(b, i, d, count)
  {
    assert d * b == (d - 1) * b + b;
  }

  /** A task with `i` tasks ahead of it is taken by drain number `i / batchSize + 1` from now,
      neither earlier nor later, whatever is dispatched in the meantime. */
  lemma {:induction false} TakenByDrain<T>(c: Config, s: State<T>, actions: seq<Action<T>>, i: nat)
    requires ValidConfig(c) && CanRun(c, s, actions) && i < |s.q.tasks|
    ensures var s' := Run(c, s, actions);
            && s.drains <= s'.drains && TakenCount(s) <= TakenCount(s')
            && TakenOnTime(c.batchSize, i, s'.drains - s.drains, TakenCount(s') - TakenCount(s))
    decreases |actions|
  {
    TakenGrows(c, s, actions);
    if actions == [] {
      assert 0 * c.batchSize == 0;
    } else {
      var s1 := Apply(c, s, actions[0]);
      var s' := Run(c, s, actions);
      TakenGrows(c, s1, actions[1..]);
      if !actions[0].Lock? {
        OthersTakeNone(c, s, actions[0]);
        TakenByDrain(c, s1, actions[1..], i);
      } else {
        LockTakes(c, s);
        if i < c.batchSize {
          LastDrain(c.batchSize, i, s'.drains - s.drains, TakenCount(s') - TakenCount(s));
        } else {
          TakenByDrain(c, s1, actions[1..], i - c.batchSize);
          FullDrain(c.batchSize, i, s'.drains - s1.drains, TakenCount(s') - TakenCount(s1));
        }
      }
    }
  }

  lemma OthersTakeNone<T>(c: Config, s: State<T>, a: Action<T>)
    requires Enabled(c, s, a) && !a.Lock?
    ensures var s' := Apply(c, s, a);
            s'.drains == s.drains && TakenCount(s') == TakenCount(s) && |s'.q.tasks| >= |s.q.tasks|
  {
  }

  /** A drain takes a batch off the front of the queue. */
  lemma LockTakes<T>(c: Config, s: State<T>)
    requires ValidConfig(c) && s.pc.Cleared?
    ensures var s' := Locked(c, s);
            && s'.drains == s.drains + 1
            && TakenCount(s') == TakenCount(s) + BatchLength(s.q, c.batchSize)
            && |s'.q.tasks| == |s.q.tasks| - BatchLength(s.q, c.batchSize)
  {
  }
}
