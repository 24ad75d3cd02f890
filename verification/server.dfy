/** The dispatch engine: the server's configuration (handler table and default
    timeout), the timeout race, single-call dispatch and batch assembly. */
module Server {
  import opened Wrappers
  import opened Json
  import opened Errors
  import opened Protocol
  import opened Gather

  /** The context a handler runs under: with a deadline exactly when the
      server's default timeout is positive. */
  datatype Context = Background | WithDeadline

  /** What a handler returns: a result and an error, each possibly nil. */
  datatype Outcome = Outcome(result: Option<Json>, err: Option<Err>)

  /** A registered method body, opaque to the server. */
  type Handler = (Context, Option<Json>) -> Outcome

  /** Which of the two goroutines of a timed call signals first. */
  datatype Race = HandlerFirst | TimerFirst

  /** The race winner of each call, by its position in the batch (a single
      call is position 0); timing is not modelled, so it is a parameter. */
  type Schedule = nat -> Race

  /** The `server` state. `timeout` is a duration; only its sign matters. */
  datatype Server = Server(handlers: map<string, Handler>, timeout: int)

  /** What `ServeRequest` answers: nothing, one response, or a batch of them. */
  datatype Reply = Single(response: Response) | Batch(responses: seq<Response>)

  /** The answer to a payload that is not JSON at all. */
  const ParseErrorResponse: Response := Response(None, Version, None, Some(ErrParseError))

  /** The answer to an empty batch (and to a bare `null`). */
  const EmptyBatchResponse: Response := Response(None, Version, None, Some(ErrInvalidRequest))

  /** `NewServer`: no methods and no timeout. */
  function NewServer(): (s: Server)
    ensures forall m :: m !in s.handlers
    ensures s.timeout == 0
  {
    Server(map[], 0)
  }

  /** `SetDefaultTimeout`: replaces the timeout and nothing else. */
  function SetDefaultTimeout(s: Server, timeout: int): (r: Server)
    ensures r.timeout == timeout
    ensures r.handlers == s.handlers
  {
    s.(timeout := timeout)
  }

  /** `DefineMethod`: registers `h` under `name`, overwriting any handler
      already there, and leaves every other name and the timeout alone. */
  function DefineMethod(s: Server, name: string, h: Handler): (r: Server)
    ensures name in r.handlers && r.handlers[name] == h
    ensures forall m :: m != name ==> (m in r.handlers <==> m in s.handlers)
    ensures forall m :: m != name && m in s.handlers ==> r.handlers[m] == s.handlers[m]
    ensures r.timeout == s.timeout
  {
    s.(handlers := s.handlers[name := h])
  }

  /** Registering twice under one name keeps only the second handler. */
  lemma DefineMethodOverwrites(s: Server, name: string, h1: Handler, h2: Handler)
    ensures DefineMethod(DefineMethod(s, name, h1), name, h2) == DefineMethod(s, name, h2)
  {
  }

  /** Registrations under different names commute. */
  lemma DefineMethodCommutes(s: Server, n1: string, h1: Handler, n2: string, h2: Handler)
    requires n1 != n2
    ensures DefineMethod(DefineMethod(s, n1, h1), n2, h2) == DefineMethod(DefineMethod(s, n2, h2), n1, h1)
  {
  }

  /** The context `serveSingleRequest` builds for a call. */
  function ContextFor(s: Server): (c: Context)
    ensures c.WithDeadline? <==> s.timeout > 0
  {
    if s.timeout > 0 then WithDeadline else Background
  }

  /** `handleAsync`: without a deadline the handler's own outcome; with one,
      the outcome of whichever goroutine signals first. A deadline that fires
      first yields `DeadlineExceeded` and no result, since the handler has not
      yet written its result. */
  function HandleAsync(ctx: Context, h: Handler, params: Option<Json>, race: Race): (o: Outcome)
    ensures ctx.Background? ==> o == h(ctx, params)
    ensures ctx.WithDeadline? && race.HandlerFirst? ==> o == h(ctx, params)
    ensures ctx.WithDeadline? && race.TimerFirst? ==> o.result.None? && o.err == Some(DeadlineExceeded)
  {
    match ctx
    case Background => h(ctx, params)
    case WithDeadline =>
      (match race
       case HandlerFirst => h(ctx, params)
       case TimerFirst => Outcome(None, Some(DeadlineExceeded)))
  }

  /** `serveSingleRequest`: decode, validate, look up, run, respond, in that
      order; the first step that fails decides the answer. */
  function ServeSingleRequest(s: Server, p: Payload, race: Race): (r: Option<Response>)
    ensures DecodeCall(p).None? ==> r == Some(ParseErrorResponse)
    ensures DecodeCall(p).Some? && !IsValid(DecodeCall(p).value) ==>
      r == Some(Response(DecodeCall(p).value.id, "2.0", None, Some(ErrInvalidRequest)))
    ensures DecodeCall(p).Some? && IsValid(DecodeCall(p).value)
            && DecodeCall(p).value.methodName !in s.handlers ==>
      r == (if DecodeCall(p).value.id.None? then None
            else Some(Response(DecodeCall(p).value.id, "2.0", None, Some(ErrMethodNotFound))))
    ensures r.None? <==> DecodeCall(p).Some? && IsNotification(DecodeCall(p).value)
    ensures r.Some? ==> r.value.version == "2.0"
    ensures r.Some? && DecodeCall(p).Some? ==> r.value.id == DecodeCall(p).value.id
  {
    match DecodeCall(p)
    case None => MakeResponse(EmptyCall, None, Some(Coded(ErrParseError)))
    case Some(c) =>
      var invalid := ValidateRequest(c);
      if invalid.Some? then MakeResponse(c, None, invalid)
      else if c.methodName !in s.handlers then MakeResponse(c, None, Some(Coded(ErrMethodNotFound)))
      else
        var o := HandleAsync(ContextFor(s), s.handlers[c.methodName], c.params, race);
        MakeResponse(c, o.result, o.err)
  }

  /** The response of each batch element, at its own position. */
  function Slots(s: Server, elems: seq<Payload>, sched: Schedule): seq<Option<Response>> {
    seq(|elems|, i requires 0 <= i < |elems| => ServeSingleRequest(s, elems[i], sched(i)))
  }

  /** The batch answer as a reference definition: the present responses in
      input order, or nothing when there are none. */
  function BatchReply(s: Server, elems: seq<Payload>, sched: Schedule): (r: Option<seq<Response>>)
    ensures r.None? <==> forall i :: 0 <= i < |elems| ==> ServeSingleRequest(s, elems[i], sched(i)).None?
    ensures r.Some? ==> 0 < |r.value| <= |elems|
  {
    var slots := Slots(s, elems, sched);
    assert forall i :: 0 <= i < |elems| ==> slots[i] == ServeSingleRequest(s, elems[i], sched(i));
    var out := Present(slots);
    if out == [] then None else Some(out)
  }

  /** The first half of `serveBatchRequest`: every element is served into its
      own slot. The goroutines run one after the other here; each writes only
      its own slot, so the order they run in does not matter. */
  method ServeAll(s: Server, elems: seq<Payload>, sched: Schedule) returns (rsps: seq<Option<Response>>)
    ensures |rsps| == |elems|
    ensures forall i :: 0 <= i < |elems| ==> rsps[i] == ServeSingleRequest(s, elems[i], sched(i))
  {
    rsps := [];
    var i := 0;
    while i < |elems|
      invariant 0 <= i <= |elems|
      invariant |rsps| == i
      invariant forall j :: 0 <= j < i ==> rsps[j] == ServeSingleRequest(s, elems[j], sched(j))
    {
      rsps := rsps + [ServeSingleRequest(s, elems[i], sched(i))];
      i := i + 1;
    }
  }

  /** The second half of `serveBatchRequest`: the non-nil slots, appended in
      index order. */
  method CollectResponses(rsps: seq<Option<Response>>) returns (result: seq<Response>)
    ensures result == Present(rsps)
    ensures |result| <= |rsps|
    ensures result == [] <==> forall i :: 0 <= i < |rsps| ==> rsps[i].None?
  {
    result := [];
    var i := 0;
    while i < |rsps|
      invariant 0 <= i <= |rsps|
      invariant result == Present(rsps[..i])
    {
      assert rsps[..i + 1][..i] == rsps[..i];
      if rsps[i].Some? {
        result := result + [rsps[i].value];
      }
      i := i + 1;
    }
    assert rsps[..|rsps|] == rsps;
  }

  /** `serveBatchRequest`: the present responses in input order, or nothing
      when every element was a notification. */
  method ServeBatchRequest(s: Server, elems: seq<Payload>, sched: Schedule) returns (r: Option<seq<Response>>)
    ensures r.None? <==> forall i :: 0 <= i < |elems| ==> ServeSingleRequest(s, elems[i], sched(i)).None?
    ensures r.Some? ==> 0 < |r.value| <= |elems|
    ensures r == BatchReply(s, elems, sched)
  {
    var rsps := ServeAll(s, elems, sched);
    assert rsps == Slots(s, elems, sched);
    var result := CollectResponses(rsps);
    if |result| == 0 {
      return None;
    }
    return Some(result);
  }

  /** `ServeRequest`: an array is a batch, an empty array (or `null`) is an
      invalid request, anything else is a single call. */
  function ServeRequest(s: Server, p: Payload, sched: Schedule): (r: Option<Reply>)
    ensures DecodeArray(p) == Some([]) ==> r == Some(Single(EmptyBatchResponse))
    ensures DecodeArray(p).Some? && DecodeArray(p).value != [] ==>
      && (r.None? <==> forall i :: 0 <= i < |DecodeArray(p).value| ==>
                         ServeSingleRequest(s, DecodeArray(p).value[i], sched(i)).None?)
      && (r.Some? ==> r.value.Batch? && |r.value.responses| <= |DecodeArray(p).value|)
    ensures DecodeArray(p).None? ==>
      && (r.None? <==> ServeSingleRequest(s, p, sched(0)).None?)
      && (r.Some? ==> r.value == Single(ServeSingleRequest(s, p, sched(0)).value))
    ensures r.Some? && r.value.Batch? ==> r.value.responses != []
  {
    match DecodeArray(p)
    case Some(elems) =>
      if |elems| == 0 then
        Some(Single(MakeResponse(EmptyCall, None, Some(Coded(ErrInvalidRequest))).value))
      else
        (match BatchReply(s, elems, sched)
         case None => None
         case Some(out) => Some(Batch(out)))
    case None =>
      match ServeSingleRequest(s, p, sched(0))
      case None => None
      case Some(rsp) => Some(Single(rsp))
  }
}
