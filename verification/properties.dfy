/** Properties that relate several calls of the dispatch engine: the timeout
    race, batch ordering and isolation, and the scenarios of the test suite. */
module Properties {
  import opened Wrappers
  import opened Json
  import opened Errors
  import opened Protocol
  import opened Gather
  import opened Server
  import opened Codec

  /** A call that reaches its handler: it decodes, is well-formed, and names a
      registered method. */
  predicate Dispatched(s: Server, p: Payload) {
    DecodeCall(p).Some? && IsValid(DecodeCall(p).value) && DecodeCall(p).value.methodName in s.handlers
  }

  /** Without a timeout the race plays no part: the response is built from the
      handler's own outcome, run under the background context. */
  lemma NoTimeoutUsesHandlerOutcome(s: Server, p: Payload, race: Race)
    requires s.timeout <= 0
    ensures ServeSingleRequest(s, p, race) == ServeSingleRequest(s, p, HandlerFirst)
    ensures Dispatched(s, p) ==>
      var c := DecodeCall(p).value;
      var o := s.handlers[c.methodName](Background, c.params);
      ServeSingleRequest(s, p, race) == MakeResponse(c, o.result, o.err)
  {
  }

  /** With a timeout a dispatched call answers either with the handler's own
      outcome or with the deadline error, and each of the two can happen. */
  lemma TimeoutOutcomes(s: Server, p: Payload)
    requires s.timeout > 0 && Dispatched(s, p) && DecodeCall(p).value.id.Some?
    ensures var c := DecodeCall(p).value;
            var o := s.handlers[c.methodName](WithDeadline, c.params);
            && ServeSingleRequest(s, p, HandlerFirst) == MakeResponse(c, o.result, o.err)
            && ServeSingleRequest(s, p, TimerFirst)
               == Some(Response(c.id, "2.0", None, Some(RpcError(-32000, "context deadline exceeded"))))
  {
  }

  /** A batch answers with the present element responses, each once, in input
      order, whatever order the elements finished in. */
  lemma BatchPreservesOrder(s: Server, p: Payload, sched: Schedule)
    requires DecodeArray(p).Some? && DecodeArray(p).value != []
    requires ServeRequest(s, p, sched).Some?
    ensures ServeRequest(s, p, sched).value.Batch?
    ensures Selects(Slots(s, DecodeArray(p).value, sched),
                    PresentIndices(Slots(s, DecodeArray(p).value, sched)),
                    ServeRequest(s, p, sched).value.responses)
  {
    PresentSelects(Slots(s, DecodeArray(p).value, sched));
  }

  /** Every element that has a response contributes it to the batch answer,
      whatever its siblings are: an element that is malformed, or whose
      handler returns an error, does not spoil the others. */
  lemma BatchIsolation(s: Server, elems: seq<Payload>, sched: Schedule, i: nat)
    requires i < |elems|
    requires ServeSingleRequest(s, elems[i], sched(i)).Some?
    ensures BatchReply(s, elems, sched).Some?
    ensures ServeSingleRequest(s, elems[i], sched(i)).value in BatchReply(s, elems, sched).value
  {
    var slots := Slots(s, elems, sched);
    assert slots[i] == ServeSingleRequest(s, elems[i], sched(i));
    PresentMembership(slots, ServeSingleRequest(s, elems[i], sched(i)).value);
  }

  /** An element that is not a request yields a parse error inside the batch. */
  lemma BatchElementParseError(s: Server, elems: seq<Payload>, sched: Schedule, i: nat)
    requires i < |elems| && DecodeCall(elems[i]).None?
    ensures BatchReply(s, elems, sched).Some?
    ensures ParseErrorResponse in BatchReply(s, elems, sched).value
  {
    BatchIsolation(s, elems, sched, i);
  }

  /** A notification gets no answer even when its method is unknown or its
      handler fails. */
  lemma NotificationsAreSilent(s: Server, c: Call, race: Race)
    requires IsValid(c) && c.id.None?
    ensures ServeSingleRequest(s, JsonObject(c), race).None?
    ensures forall sched: Schedule :: ServeRequest(s, JsonObject(c), sched).None?
  {
  }

  /** An all-notification batch gets no answer, never an empty array. */
  lemma AllNotificationBatchIsSilent(s: Server, calls: seq<Call>, sched: Schedule)
    requires calls != []
    requires forall i :: 0 <= i < |calls| ==> IsNotification(calls[i])
    ensures ServeRequest(s, JsonArray(seq(|calls|, i requires 0 <= i < |calls| => JsonObject(calls[i]))), sched).None?
  {
  }

  // ---- Scenarios of the test suite ----

  /** The echo handler of the tests: it wraps its params as `EchoResult`. */
  function Echo(ctx: Context, params: Option<Json>): Outcome {
    Outcome(Some(JObj([("EchoResult", params.GetOr(JNull))])), None)
  }

  function EchoServer(): Server {
    DefineMethod(NewServer(), "echo", Echo)
  }

  function EchoCall(id: Option<Json>, name: string): Call {
    Call(id, "2.0", name, Some(JStr("hi")))
  }

  /** Integer and string ids come back verbatim with the echoed params. */
  lemma EchoScenario(id: Json, sched: Schedule)
    requires id == JNum(1) || id == JStr("1")
    ensures EncodeReply(ServeRequest(EchoServer(), JsonObject(EchoCall(Some(id), "echo")), sched))
         == Some(JObj([("id", id), ("jsonrpc", JStr("2.0")),
                       ("result", JObj([("EchoResult", JStr("hi"))]))]))
  {
    var echoed := JObj([("EchoResult", JStr("hi"))]);
    var rsp := Response(Some(id), "2.0", Some(echoed), None);
    assert ServeRequest(EchoServer(), JsonObject(EchoCall(Some(id), "echo")), sched) == Some(Single(rsp));
    assert OptionalMembers(rsp) == [("result", echoed)];
    assert [("id", id), ("jsonrpc", JStr("2.0"))] + [("result", echoed)]
        == [("id", id), ("jsonrpc", JStr("2.0")), ("result", echoed)];
    assert EncodeResponse(rsp) == JObj([("id", id), ("jsonrpc", JStr("2.0")), ("result", echoed)]);
  }

  /** An unregistered method answers -32601 with the request's id. */
  lemma MissingMethodScenario(sched: Schedule)
    ensures EncodeReply(ServeRequest(EchoServer(), JsonObject(EchoCall(Some(JNum(1)), "no way")), sched))
         == Some(JObj([("id", JNum(1)), ("jsonrpc", JStr("2.0")),
                       ("error", JObj([("code", JNum(-32601)), ("message", JStr("Method not found"))]))]))
  {
    var s := EchoServer();
    var p := JsonObject(EchoCall(Some(JNum(1)), "no way"));
    var rsp := Response(Some(JNum(1)), "2.0", None, Some(ErrMethodNotFound));
    assert "no way" !in s.handlers;
    assert ServeSingleRequest(s, p, sched(0)) == Some(rsp);
    assert ServeRequest(s, p, sched) == Some(Single(rsp));
    var err := JObj([("code", JNum(-32601)), ("message", JStr("Method not found"))]);
    assert OptionalMembers(rsp) == [("error", err)];
    assert [("id", JNum(1)), ("jsonrpc", JStr("2.0"))] + [("error", err)]
        == [("id", JNum(1)), ("jsonrpc", JStr("2.0")), ("error", err)];
  }

  /** The wait handler of the tests, once it has slept: it answers "ok". */
  function Wait(ctx: Context, params: Option<Json>): Outcome {
    Outcome(Some(JStr("ok")), None)
  }

  /** The server of the batch tests: a 5 ms default timeout, echo and wait. */
  function BatchTestServer(): Server {
    DefineMethod(DefineMethod(SetDefaultTimeout(NewServer(), 5), "echo", Echo), "wait", Wait)
  }

  /** The mixed batch of the tests: a number, a request without a version, and
      a good call answer in order with -32700, -32600 and the echo, when the
      echo beats its 5 ms deadline. */
  lemma MixedBatchScenario(sched: Schedule)
    requires sched(2) == HandlerFirst
    ensures ServeRequest(BatchTestServer(),
                         JsonArray([JsonOther, JsonObject(Call(None, "", "echo", None)),
                                    JsonObject(EchoCall(Some(JStr("1")), "echo"))]), sched)
         == Some(Batch([ParseErrorResponse,
                        Response(None, "2.0", None, Some(ErrInvalidRequest)),
                        Response(Some(JStr("1")), "2.0", Some(JObj([("EchoResult", JStr("hi"))])), None)]))
  {
    var s := BatchTestServer();
    var elems := [JsonOther, JsonObject(Call(None, "", "echo", None)), JsonObject(EchoCall(Some(JStr("1")), "echo"))];
    var r0 := ParseErrorResponse;
    var r1 := Response(None, "2.0", None, Some(ErrInvalidRequest));
    var r2 := Response(Some(JStr("1")), "2.0", Some(JObj([("EchoResult", JStr("hi"))])), None);
    var slots := Slots(s, elems, sched);
    assert slots[0] == Some(r0);
    assert !IsValid(Call(None, "", "echo", None));
    assert slots[1] == ServeSingleRequest(s, elems[1], sched(1));
    assert slots[1] == Some(r1);
    assert slots[2] == ServeSingleRequest(s, elems[2], sched(2));
    assert "echo" != "wait";
    assert s.handlers["echo"] == Echo && ContextFor(s) == WithDeadline;
    assert slots[2] == Some(r2);
    assert slots[..3] == slots;
    assert slots[..3][..2] == slots[..2];
    assert slots[..2][..1] == slots[..1];
    assert slots[..1][..0] == [];
    assert Present(slots[..1]) == [r0];
    assert Present(slots[..2]) == [r0, r1];
    assert Present(slots) == [r0, r1, r2];
  }

  /** The timed batch of the tests: a slow wait loses to its deadline and a
      quick one beats it; the answers keep input order. */
  lemma TimedBatchScenario(sched: Schedule)
    requires sched(0) == TimerFirst && sched(1) == HandlerFirst
    ensures ServeRequest(BatchTestServer(),
                         JsonArray([JsonObject(Call(Some(JStr("1")), "2.0", "wait", Some(JNum(100)))),
                                    JsonObject(Call(Some(JStr("2")), "2.0", "wait", Some(JNum(1))))]), sched)
         == Some(Batch([Response(Some(JStr("1")), "2.0", None, Some(RpcError(-32000, "context deadline exceeded"))),
                        Response(Some(JStr("2")), "2.0", Some(JStr("ok")), None)]))
  {
    var s := BatchTestServer();
    var elems := [JsonObject(Call(Some(JStr("1")), "2.0", "wait", Some(JNum(100)))),
                  JsonObject(Call(Some(JStr("2")), "2.0", "wait", Some(JNum(1))))];
    var r0 := Response(Some(JStr("1")), "2.0", None, Some(RpcError(-32000, "context deadline exceeded")));
    var r1 := Response(Some(JStr("2")), "2.0", Some(JStr("ok")), None);
    var slots := Slots(s, elems, sched);
    assert s.handlers["wait"] == Wait && ContextFor(s) == WithDeadline;
    assert slots[0] == ServeSingleRequest(s, elems[0], sched(0));
    assert slots[0] == Some(r0);
    assert slots[1] == ServeSingleRequest(s, elems[1], sched(1));
    assert slots[1] == Some(r1);
    assert slots[..2] == slots;
    assert slots[..2][..1] == slots[..1];
    assert slots[..1][..0] == [];
    assert Present(slots[..1]) == [r0];
    assert Present(slots) == [r0, r1];
  }
}
