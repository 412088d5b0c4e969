/** The async iterator over an upstream response body: fed on the Envoy thread, read on the
    event loop thread, with cancelled reads, resets and trailers. */
module ResponseContents {
  import opened Basics
  import opened HttpCalls

  datatype ResetReason =
    | Local | Remote | Protocol | Connection | Overflow | ServerRequestDone | InvalidUpstream

  /** What a read ends with. `X` is a Python exception. */
  datatype Outcome<X> = Chunk(data: Bytes) | Raised(exception: X) | Failed(reason: ResetReason) | Stopped

  /** What the mutex guards. `trailers` is the application's object, once it has one. */
  datatype Content<X> = Content(
    pending: Option<nat>,
    body: Bytes,
    trailers: Option<seq<Header>>,
    httpTrailers: Option<seq<Header>>,
    endStream: bool,
    resetReason: Option<ResetReason>,
    exception: Option<X>)

  function Fresh<X>(): Content<X> {
    Content(None, [], None, None, false, None, None)
  }

  function Fed<X>(c: Content<X>, data: Bytes, end: bool): Content<X> {
    c.(body := c.body + data, endStream := c.endStream || end)
  }

  function TrailersFed<X>(c: Content<X>, received: seq<Header>): Content<X> {
    c.(httpTrailers := Some(received), endStream := true)
  }

  function WasReset<X>(c: Content<X>, reason: ResetReason): Content<X> {
    c.(endStream := true, resetReason := Some(reason))
  }

  function TrailersCopied<X>(c: Content<X>): Content<X> {
    if c.httpTrailers.None? then c
    else c.(httpTrailers := None,
            trailers := if c.trailers.None? then None else Some(c.trailers.value + c.httpTrailers.value))
  }

  /** Data first, then what ended the stream. */
  function Surfaced<X>(c: Content<X>): Outcome<X> {
    if c.body != [] then Chunk(c.body)
    else if c.exception.Some? then Raised(c.exception.value)
    else if c.resetReason.Some? then Failed(c.resetReason.value)
    else Stopped
  }

  /** `notify`: what it gives the pending read, if anything. `done` tells whether the
      application has cancelled that read. */
  function Delivery<X>(c: Content<X>, done: bool): Option<Outcome<X>> {
    if (c.body == [] && !c.endStream) || c.pending.None? || done then None else Some(Surfaced(c))
  }

  function Notified<X>(c: Content<X>, done: bool): Content<X> {
    var copied := TrailersCopied(c);
    if (c.body == [] && !c.endStream) || c.pending.None? then copied
    else if done then copied.(pending := None)
    else copied.(pending := None, body := [])
  }

  datatype NextResult<X> = Ready(outcome: Outcome<X>) | Wait(future: nat)

  /** `__anext__`, given the identifier a new future would have. */
  function Next<X>(c: Content<X>, future: nat): NextResult<X> {
    if c.pending.Some? then Ready(Chunk([]))
    else if c.body != [] || c.exception.Some? || c.resetReason.Some? || c.endStream then Ready(Surfaced(c))
    else Wait(future)
  }

  function AfterNext<X>(c: Content<X>, future: nat): Content<X> {
    if c.pending.Some? then c
    else
      var copied := TrailersCopied(c);
      if Next(c, future).Wait? then copied.(pending := Some(future)) else copied.(body := [])
  }

  class ResponseContent<X> {
    var pending: Option<nat>
    var body: Bytes
    var trailers: Option<seq<Header>>
    var httpTrailers: Option<seq<Header>>
    var endStream: bool
    var resetReason: Option<ResetReason>
    var exception: Option<X>

    ghost function View(): Content<X>
      reads this
    {
      Content(pending, body, trailers, httpTrailers, endStream, resetReason, exception)
    }

    constructor ()
      ensures View() == Fresh()
    {
      pending, body, trailers, httpTrailers := None, [], None, None;
      endStream, resetReason, exception := false, None, None;
    }

    method FeedResponseData(data: Bytes, end: bool) returns (notify: bool)
      modifies this
      ensures View() == Fed(old(View()), data, end) && notify == pending.Some?
    {
      body := body + data;
      endStream := endStream || end;
      notify := pending.Some?;
    }

    method FeedResponseTrailers(received: seq<Header>) returns (notify: bool)
      modifies this
      ensures View() == TrailersFed(old(View()), received) && notify == pending.Some?
    {
      httpTrailers := Some(received);
      endStream := true;
      notify := pending.Some?;
    }

    method Reset(reason: ResetReason) returns (notify: bool)
      modifies this
      ensures View() == WasReset(old(View()), reason) && notify == pending.Some?
    {
      endStream := true;
      resetReason := Some(reason);
      notify := pending.Some?;
    }

    method CopyTrailers()
      modifies this
      ensures View() == TrailersCopied(old(View()))
    {
      if httpTrailers.Some? {
        var received := httpTrailers.value;
        httpTrailers := None;
        if trailers.Some? {
          trailers := Some(trailers.value + received);
        }
      }
    }

    method Notify(done: nat -> bool) returns (r: Option<(nat, Outcome<X>)>)
      modifies this
      ensures var wasDone := old(pending).Some? && done(old(pending).value);
              && View() == Notified(old(View()), wasDone)
              && (r.Some? <==> Delivery(old(View()), wasDone).Some?)
              && (r.Some? ==> r.value == (old(pending).value, Delivery(old(View()), wasDone).value))
    {
      CopyTrailers();
      if body == [] && !endStream {
        return None;
      }
      if pending.None? {
        return None;
      }
      var future := pending.value;
      pending := None;
      if done(future) {
        return None;
      }
      if body != [] {
        r := Some((future, Chunk(body)));
        body := [];
      } else if exception.Some? {
        r := Some((future, Raised(exception.value)));
      } else if resetReason.Some? {
        r := Some((future, Failed(resetReason.value)));
      } else {
        r := Some((future, Stopped));
      }
    }

    method Anext(future: nat) returns (r: NextResult<X>)
      modifies this
      ensures r == Next(old(View()), future) && View() == AfterNext(old(View()), future)
    {
      if pending.Some? {
        return Ready(Chunk([]));
      }
      CopyTrailers();
      if body != [] {
        var chunk := body;
        body := [];
        return Ready(Chunk(chunk));
      }
      if exception.Some? {
        return Ready(Raised(exception.value));
      }
      if resetReason.Some? {
        return Ready(Failed(resetReason.value));
      }
      if endStream {
        return Ready(Stopped);
      }
      pending := Some(future);
      r := Wait(future);
    }
  }

  datatype Future = Waiting | Cancelled | Done

  /** What happened to the stream: the bytes and trailers fed, whether an end was fed, and the
      last exception and reset. */
  datatype Upstream<X> = Upstream(
    fed: Bytes, received: Option<seq<Header>>, ended: bool, exception: Option<X>, reset: Option<ResetReason>)

  /** An outcome given to the application, with what had happened by then and what the
      application's trailers object holds. `concurrent` says that another read was waiting. */
  datatype Report<X> = Report(outcome: Outcome<X>, upstream: Upstream<X>, trailers: seq<Header>, concurrent: bool)

  /** `owed` counts feeds that returned true and have not dispatched a notify yet, `notifies`
      the dispatched ones that have not run. */
  datatype State<X> = State(
    content: Content<X>, futures: seq<Future>, owed: nat, notifies: nat,
    upstream: Upstream<X>, reports: seq<Report<X>>)

  function Start<X>(): State<X> {
    State(Fresh(), [], 0, 0, Upstream([], None, false, None, None), [])
  }

  datatype Action<X> =
    | FeedData(data: Bytes, end: bool) | FeedTrailers(received: seq<Header>)
    | SetException(exception: X) | Reset(reason: ResetReason)
    | Attach                         // the response, with this content, reaches the application
    | Dispatch | Notify | Anext | Cancel(future: nat)

  /** A response has one trailer section at most, is handed out once, and is read after that. */
  predicate Enabled<X>(s: State<X>, a: Action<X>) {
    match a
    case FeedTrailers(_) => s.upstream.received.None?
    case Attach => s.content.trailers.None?
    case Dispatch => s.owed > 0
    case Notify => s.notifies > 0
    case Anext => s.content.trailers.Some?
    case Cancel(future) => future < |s.futures| && s.futures[future].Waiting?
    case _ => true
  }

  function Happened<X>(u: Upstream<X>, a: Action<X>): Upstream<X> {
    match a
    case FeedData(data, end) => u.(fed := u.fed + data, ended := u.ended || end)
    case FeedTrailers(received) => u.(received := Some(received), ended := true)
    case SetException(exception) => u.(exception := Some(exception))
    case Reset(reason) => u.(reset := Some(reason))
    case _ => u
  }

  function AfterFeed<X>(s: State<X>, content: Content<X>): State<X> {
    s.(content := content,
       owed := if content.pending.Some? then s.owed + 1 else s.owed)
  }

  function HeadersIn(trailers: Option<seq<Header>>): seq<Header> {
    if trailers.Some? then trailers.value else []
  }

  function Reported<X>(s: State<X>, content: Content<X>, outcome: Outcome<X>, concurrent: bool): State<X> {
    s.(content := content,
       reports := s.reports + [Report(outcome, s.upstream, HeadersIn(content.trailers), concurrent)])
  }

  predicate PendingDone<X>(s: State<X>) {
    && s.content.pending.Some? && s.content.pending.value < |s.futures|
    && !s.futures[s.content.pending.value].Waiting?
  }

  function AfterNotify<X>(s: State<X>): State<X> {
    var content := Notified(s.content, PendingDone(s));
    var delivery := Delivery(s.content, PendingDone(s));
    if delivery.None? then s.(content := content)
    else Reported(s.(futures := Resolved(s.futures, s.content.pending)), content, delivery.value, false)
  }

  function AfterAnext<X>(s: State<X>): State<X> {
    var content := AfterNext(s.content, |s.futures|);
    var next := Next(s.content, |s.futures|);
    if next.Ready? then Reported(s, content, next.outcome, s.content.pending.Some?)
    else s.(content := content, futures := s.futures + [Waiting])
  }

  function Apply<X>(s: State<X>, a: Action<X>): State<X>
    requires Enabled(s, a)
  {
    var s1 := s.(upstream := Happened(s.upstream, a));
    match a
    case FeedData(data, end) => AfterFeed(s1, Fed(s.content, data, end))
    case FeedTrailers(received) => AfterFeed(s1, TrailersFed(s.content, received))
    case SetException(exception) => s1.(content := s.content.(exception := Some(exception)))
    case Reset(reason) => AfterFeed(s1, WasReset(s.content, reason))
    case Attach => s.(content := s.content.(trailers := Some([])))
    case Dispatch => s.(owed := s.owed - 1, notifies := s.notifies + 1)
    case Notify => AfterNotify(s.(notifies := s.notifies - 1))
    case Anext => AfterAnext(s)
    case Cancel(future) => s.(futures := s.futures[future := Cancelled])
  }

  function Resolved(futures: seq<Future>, pending: Option<nat>): seq<Future> {
    if pending.Some? && pending.value < |futures| then futures[pending.value := Done] else futures
  }

  predicate CanRun<X>(s: State<X>, actions: seq<Action<X>>)
    decreases |actions|
  {
    actions == [] || (Enabled(s, actions[0]) && CanRun(Apply(s, actions[0]), actions[1..]))
  }

  function Run<X>(s: State<X>, actions: seq<Action<X>>): State<X>
    requires CanRun(s, actions)
    decreases |actions|
  {
    if actions == [] then s else Run(Apply(s, actions[0]), actions[1..])
  }

  function DataIn<X>(report: Report<X>): Bytes {
    if report.outcome.Chunk? then report.outcome.data else []
  }

  /** The data given to the application so far. */
  function Returned<X>(reports: seq<Report<X>>): Bytes {
    if reports == [] then []
    else Returned(reports[..|reports| - 1]) + DataIn(reports[|reports| - 1])
  }

  /** How a stream that has no more data ends. */
  function EndOf<X>(u: Upstream<X>): Outcome<X> {
    if u.exception.Some? then Raised(u.exception.value)
    else if u.reset.Some? then Failed(u.reset.value)
    else Stopped
  }

  /** The outcome after `before` is all the data fed and not returned yet, which is not empty; or
      there is none, and it is the exception, else the reset, else the end that came by then,
      with all trailers received by then in the application's hands. While another read waits,
      it is empty. */
  ghost predicate ReportOk<X>(before: seq<Report<X>>, report: Report<X>) {
    var u := report.upstream;
    if report.concurrent then report.outcome == Chunk([])
    else if report.outcome.Chunk? then
      report.outcome.data != [] && Returned(before) + report.outcome.data == u.fed
    else
      && Returned(before) == u.fed && report.outcome == EndOf(u)
      && (report.outcome.Stopped? ==> u.ended)
      && report.trailers == HeadersIn(u.received)
  }

  ghost predicate ReportsOk<X>(reports: seq<Report<X>>) {
    forall k | 0 <= k < |reports| :: ReportOk(reports[..k], reports[k])
  }

  // Received trailers are in one place, unchanged, until the application has them.
  ghost predicate TrailersOk<X>(s: State<X>) {
    var c := s.content;
    && (c.httpTrailers.Some? ==> c.httpTrailers == s.upstream.received && HeadersIn(c.trailers) == [])
    && (c.httpTrailers.None? ==> HeadersIn(c.trailers) == HeadersIn(s.upstream.received))
    && (c.pending.Some? || s.owed > 0 || s.notifies > 0 ==> c.trailers.Some?)
  }

  // At most one read waits, and something will look after it.
  ghost predicate WaitingOk<X>(s: State<X>) {
    var c := s.content;
    && (c.pending.Some? ==> c.pending.value < |s.futures| && !s.futures[c.pending.value].Done?)
    && (forall f: nat | f < |s.futures| && s.futures[f].Waiting? :: c.pending == Some(f))
    && (c.pending.Some? && (c.body != [] || c.endStream) ==> s.owed > 0 || s.notifies > 0)
  }

  ghost predicate DataOk<X>(s: State<X>) {
    ReportsOk(s.reports) && Returned(s.reports) + s.content.body == s.upstream.fed
  }

  // The content knows how the stream ended.
  predicate EndOk<X(==)>(s: State<X>) {
    && s.content.exception == s.upstream.exception && s.content.resetReason == s.upstream.reset
    && s.content.endStream == (s.upstream.ended || s.upstream.reset.Some?)
  }

  ghost predicate Inv<X>(s: State<X>) {
    WaitingOk(s) && TrailersOk(s) && EndOk(s) && DataOk(s)
  }

  lemma ReportKeepsOk<X>(reports: seq<Report<X>>, report: Report<X>)
    requires ReportsOk(reports) && ReportOk(reports, report)
    ensures ReportsOk(reports + [report])
    ensures Returned(reports + [report]) == Returned(reports) + DataIn(report)
  {
    var all := reports + [report];
    assert all[..|reports|] == reports;
    forall k | 0 <= k < |all|
      ensures ReportOk(all[..k], all[k])
    {
      if k < |reports| {
        assert all[..k] == reports[..k];
      }
    }
  }

  /** Giving an outcome keeps the data in order, if it takes the whole buffer, or comes when that
      is empty and the trailers are there, or leaves it to the read that waits. */
  lemma ReportedKeepsData<X>(s: State<X>, content: Content<X>, outcome: Outcome<X>, concurrent: bool)
    requires DataOk(s)
    requires if concurrent then outcome == Chunk([]) && content.body == s.content.body
             else if outcome.Chunk? then outcome.data == s.content.body != [] && content.body == []
             else
               && content.body == s.content.body == [] && outcome == EndOf(s.upstream)
               && (outcome.Stopped? ==> s.upstream.ended)
               && HeadersIn(content.trailers) == HeadersIn(s.upstream.received)
    ensures DataOk(Reported(s, content, outcome, concurrent))
  {
    var report := Report(outcome, s.upstream, HeadersIn(content.trailers), concurrent);
    var returned := Returned(s.reports);
    assert returned + [] == returned;
    assert returned + (DataIn(report) + content.body) == returned + DataIn(report) + content.body;
    ReportKeepsOk(s.reports, report);
  }

  /** With the trailers object attached, copying brings it everything received. */
  lemma CopiedIsComplete<X>(s: State<X>)
    requires TrailersOk(s) && s.content.trailers.Some?
    ensures var c := TrailersCopied(s.content);
            c.httpTrailers.None? && c.trailers == Some(HeadersIn(s.upstream.received))
  {
    var c := s.content;
    if c.httpTrailers.Some? {
      assert [] + c.httpTrailers.value == c.httpTrailers.value;
    }
  }

  lemma NotifyKeepsInv<X>(s: State<X>)
    requires Inv(s) && s.notifies > 0
    ensures Inv(Apply(s, Notify))
  {
    NotifyKeepsData(s.(notifies := s.notifies - 1));
    NotifyKeepsTrailers(s);
    NotifyKeepsWaiting(s);
  }

  lemma NotifyKeepsData<X>(s: State<X>)
    requires DataOk(s) && EndOk(s) && TrailersOk(s)
    ensures DataOk(AfterNotify(s)) && EndOk(AfterNotify(s))
  {
    var delivery := Delivery(s.content, PendingDone(s));
    if delivery.Some? {
      CopiedIsComplete(s);
      var s1 := s.(futures := Resolved(s.futures, s.content.pending));
      ReportedKeepsData(s1, Notified(s.content, false), delivery.value, false);
    }
  }

  lemma NotifyKeepsTrailers<X>(s: State<X>)
    requires TrailersOk(s) && s.notifies > 0
    ensures TrailersOk(Apply(s, Notify))
  {
    CopiedIsComplete(s);
  }

  lemma NotifyKeepsWaiting<X>(s: State<X>)
    requires WaitingOk(s) && s.notifies > 0
    ensures WaitingOk(Apply(s, Notify))
  {
  }

  lemma AnextKeepsInv<X>(s: State<X>)
    requires Inv(s) && Enabled(s, Anext)
    ensures Inv(Apply(s, Anext))
  {
    CopiedIsComplete(s);
    var next := Next(s.content, |s.futures|);
    if next.Ready? {
      ReportedKeepsData(s, AfterNext(s.content, |s.futures|), next.outcome, s.content.pending.Some?);
    }
    AnextKeepsWaiting(s);
  }

  lemma AnextKeepsWaiting<X>(s: State<X>)
    requires WaitingOk(s)
    ensures WaitingOk(AfterAnext(s))
  {
  }

  lemma FeedKeepsInv<X>(s: State<X>, a: Action<X>)
    requires Inv(s) && Enabled(s, a) && (a.FeedData? || a.FeedTrailers? || a.Reset?)
    ensures Inv(Apply(s, a))
  {
    if a.FeedData? {
      assert Returned(s.reports) + s.content.body + a.data == Returned(s.reports) + (s.content.body + a.data);
    }
  }

  lemma StepKeepsInv<X>(s: State<X>, a: Action<X>)
    requires Inv(s) && Enabled(s, a)
    ensures Inv(Apply(s, a))
  {
    match a
    case Notify => NotifyKeepsInv(s);
    case Anext => AnextKeepsInv(s);
    case FeedData(_, _) => FeedKeepsInv(s, a);
    case FeedTrailers(_) => FeedKeepsInv(s, a);
    case Reset(_) => FeedKeepsInv(s, a);
    case _ =>
  }

  lemma {:induction false} RunKeepsInv<X>(s: State<X>, actions: seq<Action<X>>)
    requires Inv(s) && CanRun(s, actions)
    ensures Inv(Run(s, actions))
    decreases |actions|
  {
    if actions != [] {
      StepKeepsInv(s, actions[0]);
      RunKeepsInv(Apply(s, actions[0]), actions[1..]);
    }
  }

  /** In every run of feeds, reads, cancelled reads, resets and late notifies: the chunks
      returned plus the buffer are the bytes fed; a read takes everything there is; an error or
      the end is only reported once all bytes fed by then are out and the application holds all
      trailers received by then, and is the exception, else the reset, else the end of the
      stream; at most one read waits; and a waiting read with no notify on its way really has nothing
      to receive. */
  lemma NothingLostOrStuck<X>(actions: seq<Action<X>>)
    requires CanRun(Start<X>(), actions)
    ensures var s := Run(Start<X>(), actions);
            && Returned(s.reports) + s.content.body == s.upstream.fed
            && ReportsOk(s.reports)
            && (forall f: nat | f < |s.futures| && s.futures[f].Waiting? ::
                  && s.content.pending == Some(f)
                  && (s.owed == s.notifies == 0 ==> s.content.body == [] && !s.content.endStream))
  {
    RunKeepsInv(Start<X>(), actions);
  }

  /** A read waits only if there is nothing to give it, and is given nothing only if another one
      waits. */
  lemma ReadWaitsForMore<X>(actions: seq<Action<X>>, future: nat)
    requires CanRun(Start<X>(), actions)
    ensures var s := Run(Start<X>(), actions);
            var next := Next(s.content, future);
            if s.content.pending.Some? then next == Ready(Chunk([]))
            else
              && (next.Wait? <==>
                    && Returned(s.reports) == s.upstream.fed && s.upstream.exception.None?
                    && s.upstream.reset.None? && !s.upstream.ended)
              && (next.Wait? ==> next.future == future)
  {
    RunKeepsInv(Start<X>(), actions);
    if Run(Start<X>(), actions).content.pending.None? {
      NextIsRight(Run(Start<X>(), actions), future);
    }
  }

  lemma NextIsRight<X>(s: State<X>, future: nat)
    requires DataOk(s) && EndOk(s) && s.content.pending.None?
    ensures var next := Next(s.content, future);
            && (next.Wait? <==>
                  && Returned(s.reports) == s.upstream.fed && s.upstream.exception.None?
                  && s.upstream.reset.None? && !s.upstream.ended)
            && (next.Wait? ==> next.future == future)
  {
    assert Returned(s.reports) + [] == Returned(s.reports);
  }

  lemma StepKeepsSettled<X>(s: State<X>, a: Action<X>, f: nat)
    requires WaitingOk(s) && Enabled(s, a) && f < |s.futures| && !s.futures[f].Waiting?
    ensures var s' := Apply(s, a); f < |s'.futures| && s'.futures[f] == s.futures[f]
  {
    if a.Notify? && s.content.pending == Some(f) {
      assert PendingDone(s);
    }
  }

  /** A future handed to the application is resolved at most once: whatever runs later, one
      that is resolved or cancelled stays as it is. */
  lemma {:induction false} SettledForGood<X>(s: State<X>, actions: seq<Action<X>>, f: nat)
    requires Inv(s) && CanRun(s, actions) && f < |s.futures| && !s.futures[f].Waiting?
    ensures var s' := Run(s, actions); f < |s'.futures| && s'.futures[f] == s.futures[f]
    decreases |actions|
  {
    if actions != [] {
      StepKeepsSettled(s, actions[0], f);
      StepKeepsInv(s, actions[0]);
      SettledForGood(Apply(s, actions[0]), actions[1..], f);
    }
  }
}
