/** The elastic thread pool that iterates upstream request bodies for WSGI applications. */
module BlockingPools {
  import opened Basics

  /** What a waiting worker's `select!` yields. */
  datatype Selected<J> = Received(job: J) | ShutDown | TimedOut

  /** The jobs one worker starts: its first one, then those it receives until it sees the
      shutdown, times out, or a job panics. */
  function Served<J>(job: J, panics: J -> bool, next: seq<Selected<J>>): seq<J> {
    [job] + (if panics(job) || next == [] || !next[0].Received? then []
             else Served(next[0].job, panics, next[1..]))
  }

  lemma ServedNext<J>(before: seq<J>, job: J, panics: J -> bool, next: seq<Selected<J>>, k: nat)
    requires !panics(job) && k < |next| && next[k].Received?
    ensures before + Served(job, panics, next[k..]) ==
            before + [job] + Served(next[k].job, panics, next[k + 1..])
  {
    assert next[k..][0] == next[k] && next[k..][1..] == next[k + 1..];
    Assoc(before, [job], Served(next[k].job, panics, next[k + 1..]));
  }

  datatype Worker<J> = Assigned(job: J) | Working(job: J) | Waiting | Leaving | Gone

  /** The thread in `shutdown`: not called, flag set, about to check the count, waiting on the
      condition variable, or back. */
  datatype Closer = NotCalled | FlagSet | ToCheck | Blocked(notified: bool) | Returned

  /** A submission passes the flag check (`offering`), finds no waiting worker (`counting`),
      raises the count (`spawning`) and spawns, as separate steps of its thread. */
  datatype State<J(==)> = State(
    count: nat, workers: seq<Worker<J>>, closer: Closer,
    offering: multiset<J>, counting: multiset<J>, spawning: multiset<J>,
    submitted: multiset<J>, started: multiset<J>)

  function Start<J>(): State<J> {
    State(0, [], NotCalled, multiset{}, multiset{}, multiset{}, multiset{}, multiset{})
  }

  datatype Action<J> =
    | Submit(job: J) | Offer(job: J, w: nat) | OfferFull(job: J) | Count(job: J) | Spawn(job: J)
    | Begin(w: nat) | Finish(w: nat) | Panic(w: nat) | TimeOut(w: nat) | SeeShutdown(w: nat)
    | Leave(w: nat)
    | SetFlag | Disconnect | Check | Wake | Spurious

  predicate Enabled<J>(s: State<J>, a: Action<J>) {
    match a
    case Submit(_) => true
    case Offer(job, w) => job in s.offering && w < |s.workers| && s.workers[w].Waiting?
    case OfferFull(job) =>
      job in s.offering && forall w | 0 <= w < |s.workers| :: !s.workers[w].Waiting?
    case Count(job) => job in s.counting
    case Spawn(job) => job in s.spawning
    case Begin(w) => w < |s.workers| && s.workers[w].Assigned?
    case Finish(w) => w < |s.workers| && s.workers[w].Working?
    case Panic(w) => w < |s.workers| && s.workers[w].Working?
    case TimeOut(w) => w < |s.workers| && s.workers[w].Waiting?
    case SeeShutdown(w) =>
      && w < |s.workers| && s.workers[w].Waiting?
      && (s.closer.ToCheck? || s.closer.Blocked? || s.closer.Returned?)
    case Leave(w) => w < |s.workers| && s.workers[w].Leaving?
    case SetFlag => s.closer.NotCalled?
    case Disconnect => s.closer.FlagSet?
    case Check => s.closer.ToCheck?
    case Wake => s.closer.Blocked? && s.closer.notified
    case Spurious => s.closer.Blocked?
  }

  function Apply<J>(s: State<J>, a: Action<J>): State<J>
    requires Enabled(s, a)
  {
    match a
    case Submit(job) =>
      if !s.closer.NotCalled? then s
      else s.(offering := s.offering + multiset{job}, submitted := s.submitted + multiset{job})
    case Offer(job, w) =>
      s.(offering := s.offering - multiset{job}, workers := s.workers[w := Assigned(job)])
    case OfferFull(job) =>
      s.(offering := s.offering - multiset{job}, counting := s.counting + multiset{job})
    case Count(job) =>
      s.(counting := s.counting - multiset{job}, spawning := s.spawning + multiset{job},
         count := s.count + 1)
    case Spawn(job) =>
      s.(spawning := s.spawning - multiset{job}, workers := s.workers + [Assigned(job)])
    case Begin(w) =>
      s.(workers := s.workers[w := Working(s.workers[w].job)],
         started := s.started + multiset{s.workers[w].job})
    case Finish(w) => s.(workers := s.workers[w := Waiting])
    case Panic(w) => s.(workers := s.workers[w := Leaving])
    case TimeOut(w) => s.(workers := s.workers[w := Leaving])
    case SeeShutdown(w) => s.(workers := s.workers[w := Leaving])
    case Leave(w) =>
      var count := if s.count > 0 then s.count - 1 else 0;
      s.(workers := s.workers[w := Gone], count := count,
         closer := if count == 0 && s.closer.Blocked? then Blocked(true) else s.closer)
    case SetFlag => s.(closer := FlagSet)
    case Disconnect => s.(closer := ToCheck)
    case Check => s.(closer := if s.count > 0 then Blocked(false) else Returned)
    case Wake => s.(closer := ToCheck)
    case Spurious => s.(closer := ToCheck)
  }

  predicate CanRun<J>(s: State<J>, actions: seq<Action<J>>)
    decreases |actions|
  {
    actions == [] || (Enabled(s, actions[0]) && CanRun(Apply(s, actions[0]), actions[1..]))
  }

  function Run<J>(s: State<J>, actions: seq<Action<J>>): State<J>
    requires CanRun(s, actions)
    decreases |actions|
  {
    if actions == [] then s else Run(Apply(s, actions[0]), actions[1..])
  }

  function Alive<J>(w: Worker<J>): nat {
    if w.Gone? then 0 else 1
  }

  /** Counts the workers that were given `job` and have not started it yet. */
  function Holding<J(==)>(job: J): Worker<J> -> nat {
    w => if w == Assigned(job) then 1 else 0
  }

  /** The loop of a worker, over what its `select!` yields. */
  method ServeJobs<J>(initial: J, panics: J -> bool, next: seq<Selected<J>>) returns (served: seq<J>)
    ensures served == Served(initial, panics, next)
  {
    var job := initial;
    served := [job];
    var k := 0;
    ghost var before: seq<J> := [];
    while !panics(job) && k < |next| && next[k].Received?
      invariant k <= |next| && served == before + [job]
      invariant Served(initial, panics, next) == before + Served(job, panics, next[k..])
      decreases |next| - k
    {
      ServedNext(before, job, panics, next, k);
      before := served;
      job := next[k].job;
      served := served + [job];
      k := k + 1;
    }
    assert Served(job, panics, next[k..]) == [job];
  }

  /** The pool as one thread sees it while it holds on to no step of its own: `threads` are the
      threads spawned and what each is doing. */
  class Pool<J(==, !new)> {
    var shutdown: bool
    var workers: nat  // counts workers spawned or about to be, until they exit
    var threads: seq<Worker<J>>
    ghost var submitted: multiset<J>
    ghost var started: multiset<J>

    ghost function View(): State<J>
      reads this
    {
      State(workers, threads, if shutdown then ToCheck else NotCalled,
            multiset{}, multiset{}, multiset{}, submitted, started)
    }

    ghost predicate Valid()
      reads this
    {
      workers == Sum(threads, Alive)
    }

    constructor ()
      ensures Valid() && View() == Start<J>()
    {
      shutdown, workers, threads := false, 0, [];
      submitted, started := multiset{}, multiset{};
    }

    /** A submission, with nothing interleaved, is a run of its steps. Unless the pool shuts
        down, exactly one worker gets the job, and a new thread is only spawned when no worker
        waits: the job channel holds nothing, so a job is handed over only to one that does. */
    method Execute(job: J) returns (ghost steps: seq<Action<J>>)
      requires Valid()
      modifies this
      ensures Valid() && shutdown == old(shutdown)
      ensures CanRun(old(View()), steps) && View() == Run(old(View()), steps)
      ensures shutdown ==> threads == old(threads)
      ensures !shutdown ==>
                forall j :: Sum(threads, Holding(j)) ==
                            old(Sum(threads, Holding(j))) + if j == job then 1 else 0
      ensures |old(threads)| <= |threads| <= |old(threads)| + 1
      ensures |threads| > |old(threads)| ==>
                forall w | 0 <= w < |old(threads)| :: !old(threads)[w].Waiting?
    {
      ghost var s := View();
      if shutdown {
        steps := [Submit(job)];
        return;
      }
      if exists w :: 0 <= w < |threads| && threads[w].Waiting? {
        var w :| 0 <= w < |threads| && threads[w].Waiting?;
        steps := Handing(job, w);
        HandOver(s, job, w);
        HandTo(job, w);
      } else {
        steps := [Submit(job)] + Spawning(job);
        SpawnOne(s, job);
        SpawnFor(job);
      }
    }

    /** The job is taken from the channel by a worker that waits. */
    method HandTo(job: J, w: nat)
      requires Valid() && w < |threads| && threads[w].Waiting?
      modifies this`threads, this`submitted
      ensures Valid() && threads == old(threads)[w := Assigned(job)]
      ensures submitted == old(submitted) + multiset{job}
      ensures forall j :: Sum(threads, Holding(j)) == old(Sum(threads, Holding(j))) + if j == job then 1 else 0
    {
      Given(threads, job, w);
      threads := threads[w := Assigned(job)];
      submitted := submitted + multiset{job};
    }

    method SpawnFor(job: J)
      requires Valid()
      modifies this`workers, this`threads, this`submitted
      ensures Valid() && threads == old(threads) + [Assigned(job)] && workers == old(workers) + 1
      ensures submitted == old(submitted) + multiset{job}
      ensures forall j :: Sum(threads, Holding(j)) == old(Sum(threads, Holding(j))) + if j == job then 1 else 0
    {
      GivenToNew(threads, job);
      workers := workers + 1;
      threads := threads + [Assigned(job)];
      submitted := submitted + multiset{job};
    }

    /** A worker's whole life. The guard gives the count back even if a job panics, and wakes
        the thread shutting down exactly when this was the last worker. */
    method RunWorker(w: nat, panics: J -> bool, next: seq<Selected<J>>) returns (served: seq<J>, notify: bool)
      requires Valid() && w < |threads| && threads[w].Assigned?
      modifies this
      ensures Valid() && served == Served(old(threads)[w].job, panics, next)
      ensures threads == old(threads)[w := Gone] && started == old(started) + multiset(served)
      ensures workers == old(workers) - 1 && (notify <==> workers == 0)
      ensures shutdown == old(shutdown) && submitted == old(submitted)
    {
      served := ServeJobs(threads[w].job, panics, next);
      SumUpdate(threads, Alive, w, Gone);
      threads := threads[w := Gone];
      started := started + multiset(served);
      workers := workers - 1;
      notify := workers == 0;
    }
  }

  /** Giving `job` to worker `w`, or to a new one, puts it in one more place and no other job. */
  lemma Given<J(!new)>(workers: seq<Worker<J>>, job: J, w: nat)
    requires w < |workers| && workers[w].Waiting?
    ensures Sum(workers[w := Assigned(job)], Alive) == Sum(workers, Alive)
    ensures forall j :: Sum(workers[w := Assigned(job)], Holding(j)) ==
                        Sum(workers, Holding(j)) + if j == job then 1 else 0
  {
    SumUpdate(workers, Alive, w, Assigned(job));
    forall j
      ensures Sum(workers[w := Assigned(job)], Holding(j)) ==
              Sum(workers, Holding(j)) + if j == job then 1 else 0
    {
      SumUpdate(workers, Holding(j), w, Assigned(job));
    }
  }

  lemma GivenToNew<J(!new)>(workers: seq<Worker<J>>, job: J)
    ensures Sum(workers + [Assigned(job)], Alive) == Sum(workers, Alive) + 1
    ensures forall j :: Sum(workers + [Assigned(job)], Holding(j)) ==
                        Sum(workers, Holding(j)) + if j == job then 1 else 0
  {
    SumPush(workers, Alive, Assigned(job));
    forall j
      ensures Sum(workers + [Assigned(job)], Holding(j)) ==
              Sum(workers, Holding(j)) + if j == job then 1 else 0
    {
      SumPush(workers, Holding(j), Assigned(job));
    }
  }

  function Handing<J>(job: J, w: nat): seq<Action<J>> {
    [Submit(job)] + ([Offer(job, w)] + [])
  }

  /** A submission that finds worker `w` waiting. */
  lemma HandOver<J>(s: State<J>, job: J, w: nat)
    requires s.closer.NotCalled? && w < |s.workers| && s.workers[w].Waiting?
    requires s.offering == multiset{}
    ensures CanRun(s, Handing(job, w))
    ensures Run(s, Handing(job, w)) ==
            s.(submitted := s.submitted + multiset{job}, workers := s.workers[w := Assigned(job)])
  {
    var s1 := Apply(s, Submit(job));
    Prepend(s1, Offer(job, w), []);
    Prepend(s, Submit(job), [Offer(job, w)] + []);
    assert Apply(s1, Offer(job, w)).offering == multiset{};
  }

  function Spawning<J>(job: J): seq<Action<J>> {
    [OfferFull(job)] + ([Count(job)] + ([Spawn(job)] + []))
  }

  lemma SpawnSteps<J>(s: State<J>, job: J)
    requires s.offering == multiset{job} && s.counting == s.spawning == multiset{}
    requires forall w | 0 <= w < |s.workers| :: !s.workers[w].Waiting?
    ensures CanRun(s, Spawning(job))
    ensures Run(s, Spawning(job)) ==
            s.(offering := multiset{}, count := s.count + 1, workers := s.workers + [Assigned(job)])
  {
    var s1 := Apply(s, OfferFull(job));
    assert s1 == s.(offering := multiset{}, counting := multiset{job});
    var s2 := Apply(s1, Count(job));
    assert s2 == s1.(counting := multiset{}, spawning := multiset{job}, count := s.count + 1);
    Prepend(s2, Spawn(job), []);
    Prepend(s1, Count(job), [Spawn(job)] + []);
    Prepend(s, OfferFull(job), [Count(job)] + ([Spawn(job)] + []));
    assert Apply(s2, Spawn(job)).spawning == multiset{};
  }

  /** A submission that finds no worker waiting. */
  lemma SpawnOne<J>(s: State<J>, job: J)
    requires s.closer.NotCalled? && forall w | 0 <= w < |s.workers| :: !s.workers[w].Waiting?
    requires s.offering == s.counting == s.spawning == multiset{}
    ensures CanRun(s, [Submit(job)] + Spawning(job))
    ensures Run(s, [Submit(job)] + Spawning(job)) ==
            s.(submitted := s.submitted + multiset{job}, count := s.count + 1,
               workers := s.workers + [Assigned(job)])
  {
    var s1 := Apply(s, Submit(job));
    assert s1 == s.(offering := multiset{job}, submitted := s.submitted + multiset{job});
    SpawnSteps(s1, job);
    Prepend(s, Submit(job), Spawning(job));
  }

  /** The steps of a worker's life in a run, with the hand-overs that give it further jobs. */
  function Life<J>(w: nat, job: J, panics: J -> bool, next: seq<Selected<J>>): seq<Action<J>>
    decreases |next|, 1
  {
    [Begin(w)] + (if panics(job) then Exit(Panic(w), w) else [Finish(w)] + Onward(w, panics, next))
  }

  function Onward<J>(w: nat, panics: J -> bool, next: seq<Selected<J>>): seq<Action<J>>
    decreases |next|, 0
  {
    if next == [] || next[0].TimedOut? then Exit(TimeOut(w), w)
    else if next[0].ShutDown? then Exit(SeeShutdown(w), w)
    else [Offer(next[0].job, w)] + Life(w, next[0].job, panics, next[1..])
  }

  function Exit<J>(why: Action<J>, w: nat): seq<Action<J>> {
    [why] + ([Leave(w)] + [])
  }

  lemma FirstStep<J>(s: State<J>, a: Action<J>, rest: seq<Action<J>>)
    requires CanRun(s, [a] + rest)
    ensures Enabled(s, a) && CanRun(Apply(s, a), rest) && Run(s, [a] + rest) == Run(Apply(s, a), rest)
  {
    assert ([a] + rest)[0] == a && ([a] + rest)[1..] == rest;
  }

  lemma ExitEnds<J>(s: State<J>, why: Action<J>, w: nat)
    requires w < |s.workers| && CanRun(s, Exit(why, w))
    requires why == Panic(w) || why == TimeOut(w) || why == SeeShutdown(w)
    ensures Run(s, Exit(why, w)).workers == s.workers[w := Gone] && Run(s, Exit(why, w)).started == s.started
  {
    FirstStep(s, why, [Leave(w)] + []);
    FirstStep(Apply(s, why), Leave(w), []);
  }

  /** The jobs a worker that waits goes on to start. */
  function ServedLater<J>(panics: J -> bool, next: seq<Selected<J>>): seq<J> {
    if next == [] || !next[0].Received? then [] else Served(next[0].job, panics, next[1..])
  }

  lemma ServedSplits<J>(job: J, panics: J -> bool, next: seq<Selected<J>>)
    ensures multiset(Served(job, panics, next)) ==
            multiset{job} + if panics(job) then multiset{} else multiset(ServedLater(panics, next))
  {
    var later := if panics(job) then [] else ServedLater(panics, next);
    assert Served(job, panics, next) == [job] + later;
    assert multiset([job] + later) == multiset([job]) + multiset(later);
  }

  /** Wherever a worker's life can run, it starts the jobs that `RunWorker` serves. */
  lemma {:induction false} LifeStartsServed<J>(s: State<J>, w: nat, job: J, panics: J -> bool,
                                               next: seq<Selected<J>>)
    requires w < |s.workers| && s.workers[w] == Assigned(job) && CanRun(s, Life(w, job, panics, next))
    ensures var s' := Run(s, Life(w, job, panics, next));
            && s'.workers == s.workers[w := Gone]
            && s'.started == s.started + multiset(Served(job, panics, next))
    decreases |next|, 1
  {
    if panics(job) {
      PanicEnds(s, w, job);
    } else {
      JobDone(s, w, job, Onward(w, panics, next));
      OnwardStartsServed(Freed(s, w, job), w, panics, next);
      assert Freed(s, w, job).workers[w := Gone] == s.workers[w := Gone];
    }
    ServedSplits(job, panics, next);
  }

  lemma PanicEnds<J>(s: State<J>, w: nat, job: J)
    requires w < |s.workers| && s.workers[w] == Assigned(job) && CanRun(s, [Begin(w)] + Exit(Panic(w), w))
    ensures var s' := Run(s, [Begin(w)] + Exit(Panic(w), w));
            s'.workers == s.workers[w := Gone] && s'.started == s.started + multiset{job}
  {
    FirstStep(s, Begin(w), Exit(Panic(w), w));
    ExitEnds(Apply(s, Begin(w)), Panic(w), w);
  }

  /** Worker `w` has run `job` and waits again. */
  function Freed<J>(s: State<J>, w: nat, job: J): State<J>
    requires w < |s.workers|
  {
    s.(workers := s.workers[w := Waiting], started := s.started + multiset{job})
  }

  lemma JobDone<J>(s: State<J>, w: nat, job: J, rest: seq<Action<J>>)
    requires w < |s.workers| && s.workers[w] == Assigned(job)
    requires CanRun(s, [Begin(w)] + ([Finish(w)] + rest))
    ensures CanRun(Freed(s, w, job), rest)
    ensures Run(s, [Begin(w)] + ([Finish(w)] + rest)) == Run(Freed(s, w, job), rest)
  {
    FirstStep(s, Begin(w), [Finish(w)] + rest);
    var s1 := Apply(s, Begin(w));
    FirstStep(s1, Finish(w), rest);
    assert Apply(s1, Finish(w)) == Freed(s, w, job);
  }

  lemma {:induction false} OnwardStartsServed<J>(s: State<J>, w: nat, panics: J -> bool,
                                                 next: seq<Selected<J>>)
    requires w < |s.workers| && s.workers[w].Waiting? && CanRun(s, Onward(w, panics, next))
    ensures var s' := Run(s, Onward(w, panics, next));
            && s'.workers == s.workers[w := Gone]
            && s'.started == s.started + multiset(ServedLater(panics, next))
    decreases |next|, 0
  {
    if next == [] || next[0].TimedOut? {
      ExitEnds(s, TimeOut(w), w);
    } else if next[0].ShutDown? {
      ExitEnds(s, SeeShutdown(w), w);
    } else {
      FirstStep(s, Offer(next[0].job, w), Life(w, next[0].job, panics, next[1..]));
      LifeStartsServed(Apply(s, Offer(next[0].job, w)), w, next[0].job, panics, next[1..]);
    }
  }

  /** `job` is any job: each is in exactly one place as often as it was submitted. */
  ghost predicate Inv<J>(s: State<J>, job: J) {
    && s.count == |s.spawning| + Sum(s.workers, Alive)
    && s.submitted[job] == s.offering[job] + s.counting[job] + s.spawning[job]
                           + Sum(s.workers, Holding(job)) + s.started[job]
    && (s.closer.Blocked? && !s.closer.notified ==> s.count > 0)
  }

  /** The steps that change one worker. */
  predicate OfWorker<J>(a: Action<J>) {
    a.Offer? || a.Begin? || a.Finish? || a.Panic? || a.TimeOut? || a.SeeShutdown? || a.Leave?
  }

  lemma WorkerKeepsInv<J>(s: State<J>, a: Action<J>, job: J)
    requires Inv(s, job) && Enabled(s, a) && OfWorker(a)
    ensures Inv(Apply(s, a), job)
  {
    var s' := Apply(s, a);
    SumUpdate(s.workers, Alive, a.w, s'.workers[a.w]);
    SumUpdate(s.workers, Holding(job), a.w, s'.workers[a.w]);
  }

  lemma SpawnKeepsInv<J>(s: State<J>, spawned: J, job: J)
    requires Inv(s, job) && Enabled(s, Spawn(spawned))
    ensures Inv(Apply(s, Spawn(spawned)), job)
  {
    SumPush(s.workers, Alive, Assigned(spawned));
    SumPush(s.workers, Holding(job), Assigned(spawned));
  }

  lemma StepKeepsInv<J>(s: State<J>, a: Action<J>, job: J)
    requires Inv(s, job) && Enabled(s, a)
    ensures Inv(Apply(s, a), job)
  {
    if a.Spawn? {
      SpawnKeepsInv(s, a.job, job);
    } else if OfWorker(a) {
      WorkerKeepsInv(s, a, job);
    }
  }

  lemma {:induction false} RunKeepsInv<J>(s: State<J>, actions: seq<Action<J>>, job: J)
    requires Inv(s, job) && CanRun(s, actions)
    ensures Inv(Run(s, actions), job)
    decreases |actions|
  {
    if actions != [] {
      StepKeepsInv(s, actions[0], job);
      RunKeepsInv(Apply(s, actions[0]), actions[1..], job);
    }
  }

  /** In every run, overlapping submissions and panics included: the count is exact, every
      job that passed the flag check is in one place or was started once, and a thread
      blocked in `shutdown` with no wakeup on its way still has a worker to wait for. */
  lemma CountIsExact<J>(actions: seq<Action<J>>, job: J)
    requires CanRun(Start<J>(), actions)
    ensures var s := Run(Start<J>(), actions);
            && s.count == |s.spawning| + Sum(s.workers, Alive)
            && s.submitted[job] == s.offering[job] + s.counting[job] + s.spawning[job]
                                   + Sum(s.workers, Holding(job)) + s.started[job]
            && (s.closer.Blocked? && !s.closer.notified ==> s.count > 0)
  {
    RunKeepsInv(Start<J>(), actions, job);
  }

  /** No submission is between its flag check and raising the count. */
  predicate NoneUncounted<J>(s: State<J>) {
    |s.offering| == |s.counting| == 0
  }

  function Effort<J>(w: Worker<J>): nat {
    match w
    case Assigned(_) => 9
    case Working(_) => 8
    case Waiting => 7
    case Leaving => 6
    case Gone => 0
  }

  function CloserEffort(c: Closer): nat {
    match c
    case NotCalled => 6
    case FlagSet => 5
    case ToCheck => 3
    case Blocked(notified) => if notified then 4 else 0
    case Returned => 0
  }

  function Remaining<J>(s: State<J>): nat {
    10 * |s.spawning| + Sum(s.workers, Effort) + CloserEffort(s.closer)
  }

  lemma AllGone<J>(workers: seq<Worker<J>>, k: nat)
    requires Sum(workers, Alive) == 0 && k < |workers|
    ensures workers[k].Gone?
  {
    if k > 0 {
      AllGone(workers[1..], k - 1);
    }
  }

  lemma {:induction false} NoneHolding<J>(workers: seq<Worker<J>>, job: J)
    requires forall w :: w in workers ==> w.Gone?
    ensures Sum(workers, Holding(job)) == 0
  {
    if workers != [] {
      assert workers[0] in workers;
      NoneHolding(workers[1..], job);
    }
  }

  ghost predicate Stuck<J(!new)>(s: State<J>) {
    forall a: Action<J> :: Enabled(s, a) ==> a.Submit? || a.Spurious?
  }

  ghost predicate ShutDownComplete<J>(s: State<J>, job: J) {
    && s.closer.Returned? && s.count == 0 && s.started[job] == s.submitted[job]
    && forall k | 0 <= k < |s.workers| :: s.workers[k].Gone?
  }

  /** What holds from the moment `shutdown` is called with every submission counted. */
  ghost predicate Closing<J>(s: State<J>, job: J) {
    && Inv(s, job) && NoneUncounted(s) && !s.closer.NotCalled?
    && (s.closer.Returned? ==> s.count == 0)
  }

  lemma ReturnedIsComplete<J>(s: State<J>, job: J)
    requires Closing(s, job) && s.closer.Returned?
    ensures ShutDownComplete(s, job)
  {
    forall k | 0 <= k < |s.workers| ensures s.workers[k].Gone? {
      AllGone(s.workers, k);
    }
    NoneHolding(s.workers, job);
    assert s.offering == s.counting == multiset{} && |s.spawning| == 0;
  }

  /** Steps that get on with the shutdown count; a spurious wakeup can add to them. */
  function Work<J>(a: Action<J>): nat {
    if a.Submit? || a.Spurious? then 0 else 1
  }

  function Added<J>(a: Action<J>): nat {
    if a.Spurious? then 3 else 0
  }

  lemma ClosingStep<J>(s: State<J>, a: Action<J>, job: J)
    requires Closing(s, job) && Enabled(s, a)
    ensures Closing(Apply(s, a), job) && Apply(s, a).submitted == s.submitted
    ensures Remaining(Apply(s, a)) + Work(a) <= Remaining(s) + Added(a)
  {
    StepKeepsInv(s, a, job);
    if a.Spawn? {
      SumPush(s.workers, Effort, Assigned(a.job));
    } else if OfWorker(a) {
      WorkerProgresses(s, a, job);
    }
  }

  lemma WorkerProgresses<J>(s: State<J>, a: Action<J>, job: J)
    requires Closing(s, job) && Enabled(s, a) && OfWorker(a)
    ensures var s' := Apply(s, a);
            && NoneUncounted(s') && s'.submitted == s.submitted && !s.closer.Returned? && !s'.closer.Returned?
            && Remaining(s') < Remaining(s)
  {
    if s.closer.Returned? {
      AllGone(s.workers, a.w);
      assert false;
    }
    SumUpdate(s.workers, Effort, a.w, Apply(s, a).workers[a.w]);
  }

  /** Until `shutdown` is back, some step other than a spurious wakeup is possible. */
  lemma Available<J>(s: State<J>, job: J) returns (a: Action<J>)
    requires Closing(s, job) && !s.closer.Returned?
    ensures Enabled(s, a) && !a.Submit? && !a.Spurious?
  {
    match s.closer
    case FlagSet => a := Disconnect;
    case ToCheck => a := Check;
    case Blocked(notified) =>
      if notified {
        a := Wake;
      } else {
        a := WorkLeft(s, job);
      }
  }

  /** While the count is not zero, some submission or worker can go on towards its exit. */
  lemma WorkLeft<J>(s: State<J>, job: J) returns (a: Action<J>)
    requires Inv(s, job) && s.count > 0
    ensures Enabled(s, a) && (a.Spawn? || a.Begin? || a.Finish? || a.TimeOut? || a.Leave?)
  {
    if |s.spawning| > 0 {
      var spawned :| spawned in s.spawning;
      a := Spawn(spawned);
    } else {
      var k := SomeAlive(s.workers);
      match s.workers[k]
      case Assigned(_) => a := Begin(k);
      case Working(_) => a := Finish(k);
      case Waiting => a := TimeOut(k);
      case Leaving => a := Leave(k);
    }
  }

  lemma {:induction false} SomeAlive<J>(workers: seq<Worker<J>>) returns (k: nat)
    requires Sum(workers, Alive) > 0
    ensures k < |workers| && !workers[k].Gone?
  {
    if !workers[0].Gone? {
      k := 0;
    } else {
      k := SomeAlive(workers[1..]);
      k := k + 1;
    }
  }

  lemma {:induction false} ClosingRun<J(!new)>(s: State<J>, actions: seq<Action<J>>, job: J)
    requires Closing(s, job) && CanRun(s, actions)
    ensures Sum(actions, Work<J>) <= Remaining(s) + Sum(actions, Added<J>)
    ensures var s' := Run(s, actions);
            && s'.submitted == s.submitted
            && (s'.closer.Returned? ==> ShutDownComplete(s', job))
            && (Stuck(s') ==> s'.closer.Returned?)
    decreases |actions|
  {
    if actions == [] {
      if s.closer.Returned? {
        ReturnedIsComplete(s, job);
      }
      if Stuck(s) && !s.closer.Returned? {
        var a := Available(s, job);
      }
    } else {
      ClosingStep(s, actions[0], job);
      ClosingRun(Apply(s, actions[0]), actions[1..], job);
    }
  }

  /** Call `shutdown` when every submission that passed the flag check is counted, as the
      executor does by joining its workers first. Whatever is submitted or wakes spuriously
      afterwards, the steps towards the end are bounded, plus three for each spurious wakeup;
      later submissions are refused; a run stops only with `shutdown` back; and when it is back
      every worker has exited and every accepted job was started exactly once. */
  lemma ShutdownCompletes<J(!new)>(before: seq<Action<J>>, after: seq<Action<J>>, job: J)
    requires CanRun(Start<J>(), before) && NoneUncounted(Run(Start<J>(), before))
    requires Run(Start<J>(), before).closer.NotCalled?
    requires CanRun(Apply(Run(Start<J>(), before), SetFlag), after)
    ensures var closing := Apply(Run(Start<J>(), before), SetFlag);
            var s := Run(closing, after);
            && Sum(after, Work<J>) <= Remaining(closing) + Sum(after, Added<J>)
            && s.submitted == closing.submitted
            && (Stuck(s) ==> s.closer.Returned?)
            && (s.closer.Returned? ==> ShutDownComplete(s, job))
  {
    var s := Run(Start<J>(), before);
    RunKeepsInv(Start<J>(), before, job);
    StepKeepsInv(s, SetFlag, job);
    ClosingRun(Apply(s, SetFlag), after, job);
  }

  lemma Prepend<J>(s: State<J>, a: Action<J>, rest: seq<Action<J>>)
    requires Enabled(s, a) && CanRun(Apply(s, a), rest)
    ensures CanRun(s, [a] + rest) && Run(s, [a] + rest) == Run(Apply(s, a), rest)
  {
    assert ([a] + rest)[1..] == rest;
  }

  lemma WorkStep<J>(s: State<J>, a: Action<J>, job: J)
    requires Inv(s, job) && s.closer.FlagSet? && Enabled(s, a)
    requires a.Spawn? || a.Begin? || a.Finish? || a.TimeOut? || a.Leave?
    ensures var s' := Apply(s, a);
            && Inv(s', job) && s'.closer.FlagSet? && s'.offering == s.offering && s'.counting == s.counting
            && Remaining(s') < Remaining(s)
  {
    StepKeepsInv(s, a, job);
    if a.Spawn? {
      SumPush(s.workers, Effort, Assigned(a.job));
    } else {
      SumUpdate(s.workers, Effort, a.w, Apply(s, a).workers[a.w]);
    }
  }

  /** Every counted submission and every worker can finish while one that is not counted stays
      where it is. */
  lemma {:induction false} OthersFinish<J>(s: State<J>, job: J) returns (actions: seq<Action<J>>)
    requires Inv(s, job) && s.closer.FlagSet?
    ensures CanRun(s, actions) && forall a :: a in actions ==> !a.Submit? && !a.Spurious?
    ensures var s' := Run(s, actions);
            && Inv(s', job) && s'.closer.FlagSet? && s'.count == 0
            && s'.offering == s.offering && s'.counting == s.counting
    decreases Remaining(s)
  {
    if s.count == 0 {
      actions := [];
    } else {
      var a := WorkLeft(s, job);
      WorkStep(s, a, job);
      actions := OthersFinish(Apply(s, a), job);
      Prepend(s, a, actions);
      actions := [a] + actions;
    }
  }

  lemma {:induction false} Append<J>(s: State<J>, actions: seq<Action<J>>, a: Action<J>)
    requires CanRun(s, actions) && Enabled(Run(s, actions), a)
    ensures CanRun(s, actions + [a]) && Run(s, actions + [a]) == Apply(Run(s, actions), a)
    decreases |actions|
  {
    if actions == [] {
      assert actions + [a] == [a];
    } else {
      assert (actions + [a])[1..] == actions[1..] + [a];
      Append(Apply(s, actions[0]), actions[1..], a);
    }
  }

  lemma ThenReturns<J>(s: State<J>, job: J)
    requires Inv(s, job) && s.closer.FlagSet? && s.count == 0 && (job in s.offering || job in s.counting)
    ensures Enabled(s, Disconnect) && Enabled(Apply(s, Disconnect), Check)
    ensures var s' := Apply(Apply(s, Disconnect), Check);
            s'.closer.Returned? && !ShutDownComplete(s', job)
  {
  }

  /** The condition is exact: call `shutdown` while a submission has passed the flag check and
      is not counted, and `shutdown` can be back before the job is started. */
  lemma OverlapOutlivesShutdown<J>(before: seq<Action<J>>, job: J) returns (after: seq<Action<J>>)
    requires CanRun(Start<J>(), before) && Run(Start<J>(), before).closer.NotCalled?
    requires var s := Run(Start<J>(), before); job in s.offering || job in s.counting
    ensures forall a :: a in after ==> !a.Spurious? && !a.Submit?
    ensures var closing := Apply(Run(Start<J>(), before), SetFlag);
            CanRun(closing, after) && Run(closing, after).closer.Returned?
            && !ShutDownComplete(Run(closing, after), job)
  {
    var s := Run(Start<J>(), before);
    RunKeepsInv(Start<J>(), before, job);
    StepKeepsInv(s, SetFlag, job);
    var closing := Apply(s, SetFlag);
    after := OthersFinish(closing, job);
    ThenReturns(Run(closing, after), job);
    Append(closing, after, Disconnect);
    Append(closing, after + [Disconnect], Check);
    after := after + [Disconnect] + [Check];
  }
}
