/** The calls a filter makes on Envoy to respond, and what makes them a legal response. */
module HttpCalls {
  import opened Basics

  datatype Header = Header(name: Bytes, value: Bytes)

  datatype Call =
    | Headers(status: nat, headers: seq<Header>, end: bool)
    | Data(body: Bytes, end: bool)
    | Trailers(trailers: seq<Header>)
    | Reply500  // `send_response` with an internal server error; Envoy resets a started stream

  predicate Ends(c: Call) {
    match c
    case Headers(_, _, end) => end
    case Data(_, end) => end
    case Trailers(_) => true
    case Reply500 => false
  }

  /** A prefix of one header block, data, and one end, as section 8.1 of RFC 9113 orders them:
      the header block comes first and only first, and nothing follows an end. */
  ghost predicate WellFormed(calls: seq<Call>) {
    forall k | 0 <= k < |calls| ::
      && (calls[k].Headers? <==> k == 0)
      && !calls[k].Reply500?
      && (Ends(calls[k]) ==> k == |calls| - 1)
  }

  predicate Ended(calls: seq<Call>) {
    calls != [] && Ends(calls[|calls| - 1])
  }

  predicate Begins(calls: seq<Call>, status: nat, headers: seq<Header>) {
    calls != [] && calls[0].Headers? && calls[0].status == status && calls[0].headers == headers
  }

  /** A response without data that does not end with its header block. */
  predicate EndsLate(calls: seq<Call>) {
    |calls| == 2 && calls[1] == Data([], true)
  }

  predicate EndsInTime(calls: seq<Call>) {
    !EndsLate(calls) && (|calls| == 1 ==> Ended(calls))
  }

  predicate EndsInTrailers(calls: seq<Call>) {
    calls != [] && calls[|calls| - 1].Trailers?
  }

  /** Trailers in a list of calls are these. */
  ghost predicate TrailersAre(calls: seq<Call>, trailers: seq<Header>) {
    forall k | 0 <= k < |calls| && calls[k].Trailers? :: calls[k].trailers == trailers
  }

  ghost predicate NoTrailers(calls: seq<Call>) {
    forall k | 0 <= k < |calls| :: !calls[k].Trailers?
  }

  /** What may follow a header block that has not ended the response. */
  ghost predicate Continues(more: seq<Call>) {
    forall k | 0 <= k < |more| ::
      && !more[k].Headers? && !more[k].Reply500?
      && (Ends(more[k]) ==> k == |more| - 1)
  }

  lemma WellFormedExtends(calls: seq<Call>, more: seq<Call>)
    requires WellFormed(calls)
    requires if calls == [] then WellFormed(more) else !Ended(calls) && Continues(more)
    ensures WellFormed(calls + more)
    ensures Ended(calls + more) == (if more == [] then Ended(calls) else Ended(more))
  {
    var all := calls + more;
    forall k | 0 <= k < |all|
      ensures (all[k].Headers? <==> k == 0) && !all[k].Reply500? && (Ends(all[k]) ==> k == |all| - 1)
    {
      if k >= |calls| {
        assert all[k] == more[k - |calls|];
      }
    }
  }

  lemma WellFormedPrefix(calls: seq<Call>, all: seq<Call>)
    requires calls <= all && WellFormed(all)
    ensures WellFormed(calls)
  {
    assert forall k | 0 <= k < |calls| :: calls[k] == all[k];
  }

  function AsResponse(c: Call): seq<Call> {
    if c.Reply500? then [] else [c]
  }

  function AsReply(c: Call): seq<Call> {
    if c.Reply500? then [c] else []
  }

  function BodyOf(c: Call): Bytes {
    if c.Data? then c.body else []
  }

  /** Everything but the replies to exceptions. */
  function ResponseCalls(calls: seq<Call>): seq<Call> {
    FlatMap(calls, AsResponse)
  }

  /** The replies to exceptions. */
  function Replies(calls: seq<Call>): seq<Call> {
    FlatMap(calls, AsReply)
  }

  /** The body bytes in a list of calls. */
  function DataOf(calls: seq<Call>): Bytes {
    FlatMap(calls, BodyOf)
  }

  lemma {:induction false} ResponseCallsAll(calls: seq<Call>)
    requires forall c :: c in calls ==> !c.Reply500?
    ensures ResponseCalls(calls) == calls && Replies(calls) == []
    decreases |calls|
  {
    if calls != [] {
      assert calls[|calls| - 1] in calls;
      assert calls == calls[..|calls| - 1] + [calls[|calls| - 1]];
      ResponseCallsAll(calls[..|calls| - 1]);
    }
  }

  lemma DataOfTwo(first: Call, second: Call)
    ensures DataOf([first, second]) == BodyOf(first) + BodyOf(second)
  {
    FlatMapTwo(BodyOf, first, second);
  }

  lemma DataOfOne(call: Call)
    ensures DataOf([call]) == BodyOf(call)
  {
    FlatMapOne(BodyOf, call);
  }

  /** `more` carries on the calls made so far. */
  lemma CallsAppend(calls: seq<Call>, more: seq<Call>)
    ensures ResponseCalls(calls + more) == ResponseCalls(calls) + ResponseCalls(more)
    ensures Replies(calls + more) == Replies(calls) + Replies(more)
    ensures DataOf(calls + more) == DataOf(calls) + DataOf(more)
  {
    FlatMapAppend(calls, more, AsResponse);
    FlatMapAppend(calls, more, AsReply);
    FlatMapAppend(calls, more, BodyOf);
  }
}
