/** The mutex-guarded queue between Python threads and the Envoy thread.

    The code keeps one of four shapes to avoid allocating for a single event. A
    `Channel` is what the shapes mean: a first-in, first-out queue that can be
    shut for good. */
module EventBridges {
  import opened Basics

  datatype Channel<T> = Shut | Open(queue: seq<T>)

  /** The events still waiting; a shut channel holds none. */
  function Queue<T>(c: Channel<T>): seq<T> {
    if c.Shut? then [] else c.queue
  }

  function Sent<T>(c: Channel<T>, event: T): Channel<T> {
    if c.Shut? then Shut else Open(c.queue + [event])
  }

  function Drained<T>(c: Channel<T>): Channel<T> {
    if c.Shut? then Shut else Open([])
  }

  function FirstTaken<T>(c: Channel<T>): Channel<T> {
    if c.Shut? || c.queue == [] then c else Open(c.queue[1..])
  }

  /** What another thread may do to the bridge while an event is being handled. */
  datatype Op<T> = SendOp(event: T) | CloseOp

  function AfterOps<T>(c: Channel<T>, ops: seq<Op<T>>): Channel<T>
    decreases |ops|
  {
    if ops == [] then c
    else AfterOps(if ops[0].CloseOp? then Shut else Sent(c, ops[0].event), ops[1..])
  }

  lemma {:induction false} AfterOpsAppend<T>(c: Channel<T>, a: seq<Op<T>>, b: seq<Op<T>>)
    ensures AfterOps(c, a + b) == AfterOps(AfterOps(c, a), b)
    decreases |a|
  {
    if a == [] {
      assert a + b == b;
    } else {
      assert (a + b)[1..] == a[1..] + b;
      AfterOpsAppend(if a[0].CloseOp? then Shut else Sent(c, a[0].event), a[1..], b);
    }
  }

  /** All the operations that happen while the first `n` drained events are handled. */
  function During<T>(during: nat -> seq<Op<T>>, n: nat): seq<Op<T>> {
    if n == 0 then [] else During(during, n - 1) + during(n - 1)
  }

  /** The shapes of `Inner` in the code. */
  datatype Inner<T> = Closed | Empty | Single(event: T) | Multiple(events: seq<T>)

  datatype SendResult<T> = Accepted | Rejected(event: T)

  class EventBridge<T> {
    var inner: Inner<T>

    /** `get` takes the first of several events, so `Multiple` must never be left empty. */
    ghost predicate Valid()
      reads this
    {
      inner.Multiple? ==> inner.events != []
    }

    ghost function View(): Channel<T>
      reads this
    {
      match inner
      case Closed => Shut
      case Empty => Open([])
      case Single(event) => Open([event])
      case Multiple(events) => Open(events)
    }

    constructor ()
      ensures Valid() && View() == Open([])
    {
      inner := Empty;
    }

    method Send(event: T) returns (r: SendResult<T>)
      requires Valid()
      modifies this
      ensures Valid() && View() == Sent(old(View()), event)
      ensures r == if old(View()).Shut? then Rejected(event) else Accepted
    {
      r := Accepted;
      match inner {
        case Closed => r := Rejected(event);
        case Empty => inner := Single(event);
        case Single(first) => inner := Multiple([first, event]);
        case Multiple(events) => inner := Multiple(events + [event]);
      }
    }

    method IsEmpty() returns (empty: bool)
      requires Valid()
      ensures empty <==> Queue(View()) == []
    {
      empty := inner.Empty? || inner.Closed?;
    }

    /** The part of `process` under the lock: takes every event at once. */
    method Drain() returns (events: seq<T>)
      requires Valid()
      modifies this
      ensures Valid() && View() == Drained(old(View()))
      ensures events == Queue(old(View()))
    {
      var taken := inner;
      inner := Empty;
      match taken {
        case Closed => inner := Closed; events := [];
        case Empty => events := [];
        case Single(event) => events := [event];
        case Multiple(several) => events := several;
      }
    }

    /** `process` with a handler that records each event. `during(k)` is what other
        threads, or the handler itself, do to the bridge while event `k` is handled:
        the lock is free by then. Those operations never change which events this
        call handles. */
    method Process(during: nat -> seq<Op<T>>) returns (handled: seq<T>)
      requires Valid()
      modifies this
      ensures Valid() && handled == Queue(old(View()))
      ensures View() == AfterOps(Drained(old(View())), During(during, |handled|))
    {
      var events := Drain();
      ghost var drained := View();
      handled := [];
      for k := 0 to |events|
        invariant Valid() && handled == events[..k]
        invariant View() == AfterOps(drained, During(during, k))
      {
        assert events[..k + 1] == events[..k] + [events[k]];
        handled := handled + [events[k]];
        AfterOpsAppend(drained, During(during, k), during(k));
        Perform(during(k));
      }
      assert events[..|events|] == events;
    }

    /** Operations of other threads. */
    method Perform(ops: seq<Op<T>>)
      requires Valid()
      modifies this
      ensures Valid() && View() == AfterOps(old(View()), ops)
    {
      ghost var before := View();
      for j := 0 to |ops|
        invariant Valid() && View() == AfterOps(before, ops[..j])
      {
        AfterOpsAppend(before, ops[..j], [ops[j]]);
        assert ops[..j + 1] == ops[..j] + [ops[j]];
        match ops[j] {
          case SendOp(event) => var _ := Send(event);
          case CloseOp => var _ := Close();
        }
      }
      assert ops[..|ops|] == ops;
    }

    method Get() returns (r: Option<T>)
      requires Valid()
      modifies this
      ensures Valid() && View() == FirstTaken(old(View()))
      ensures r == if Queue(old(View())) == [] then None else Some(Queue(old(View()))[0])
    {
      match inner {
        case Closed => r := None;
        case Empty => r := None;
        case Single(event) => inner := Empty; r := Some(event);
        case Multiple(events) =>
          r := Some(events[0]);
          inner := if events[1..] != [] then Multiple(events[1..]) else Empty;
      }
    }

    /** Replacing the contents drops the events that still wait; they are returned here. */
    method Close() returns (dropped: seq<T>)
      requires Valid()
      modifies this
      ensures Valid() && View() == Shut
      ensures dropped == Queue(old(View()))
    {
      match inner {
        case Closed => dropped := [];
        case Empty => dropped := [];
        case Single(event) => dropped := [event];
        case Multiple(events) => dropped := events;
      }
      inner := Closed;
    }
  }

  /** A closed bridge never reopens, whatever is done to it afterwards. */
  lemma {:induction false} ShutForGood<T>(ops: seq<Op<T>>)
    ensures AfterOps(Shut, ops) == Shut
  {
    if ops != [] {
      ShutForGood(ops[1..]);
    }
  }
}
