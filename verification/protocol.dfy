/** The request and response shapes of the server, the classification of an
    incoming payload, request validation and response construction. */
module Protocol {
  import opened Wrappers
  import opened Json
  import opened Errors

  /** The only protocol version the server accepts and the one it answers with. */
  const Version: string := "2.0"

  /** A decoded `request`. `id` and `params` are raw JSON that is either absent
      (`None`) or present; an explicit JSON `null` id is present, `Some(JNull)`. */
  datatype Call = Call(id: Option<Json>, version: string, methodName: string, params: Option<Json>)

  /** The zero `request{}`: what a payload that could not be decoded is answered for. */
  const EmptyCall: Call := Call(None, "", "", None)

  /** A `response`. An absent id is written out as `null`; `result` and `error`
      are each omitted when absent, and nothing stops both from being present. */
  datatype Response = Response(id: Option<Json>, version: string, result: Option<Json>, error: Option<RpcError>)

  /** What `encoding/json` makes of a payload, as far as the server can tell:
      it is decoded once as an array of raw messages and once as a request. */
  datatype Payload =
      /** not well-formed JSON: neither decoding succeeds */
    | NotJson
      /** the literal `null`: it decodes to a nil array and leaves a request zero */
    | JsonNull
      /** an array: it decodes as a batch but not as a request. `json.Unmarshal`
          checks the whole document first, so a `NotJson` element cannot occur. */
    | JsonArray(elems: seq<Payload>)
      /** an object whose members have the types of the request fields */
    | JsonObject(call: Call)
      /** any other well-formed JSON: a number, string or boolean, or an object
          whose members have the wrong types; neither decoding succeeds */
    | JsonOther

  /** Decoding into `[]json.RawMessage`. */
  function DecodeArray(p: Payload): (r: Option<seq<Payload>>)
    ensures r.Some? <==> p.JsonArray? || p.JsonNull?
    ensures p.JsonArray? ==> r == Some(p.elems)
    ensures p.JsonNull? ==> r == Some([])
  {
    match p
    case JsonArray(elems) => Some(elems)
    case JsonNull => Some([])
    case _ => None
  }

  /** Decoding into a `request`. */
  function DecodeCall(p: Payload): (r: Option<Call>)
    ensures r.Some? <==> p.JsonObject? || p.JsonNull?
    ensures p.JsonObject? ==> r == Some(p.call)
    ensures p.JsonNull? ==> r.Some? && r.value.id.None? && !IsValid(r.value)
  {
    match p
    case JsonObject(c) => Some(c)
    case JsonNull => Some(EmptyCall)
    case _ => None
  }

  /** Only `null` decodes both as a batch and as a request; the server tries
      the batch reading first, so `null` is never served as a request. */
  lemma DecodingsOverlapOnlyOnNull(p: Payload)
    ensures DecodeArray(p).Some? && DecodeCall(p).Some? <==> p.JsonNull?
  {
  }

  /** A request is well-formed when it names the version and a method. */
  predicate IsValid(c: Call) {
    c.version == Version && c.methodName != ""
  }

  /** A notification: a well-formed request without an id. */
  predicate IsNotification(c: Call) {
    IsValid(c) && c.id.None?
  }

  /** `validateRequest`: accepts exactly the well-formed requests and rejects
      every other one with the invalid-request sentinel. */
  function ValidateRequest(c: Call): (e: Option<Err>)
    ensures e.None? <==> c.version == "2.0" && c.methodName != ""
    ensures e.Some? ==> e.value == Coded(ErrInvalidRequest)
  {
    if c.version != Version then Some(Coded(ErrInvalidRequest))
    else if c.methodName == "" then Some(Coded(ErrInvalidRequest))
    else None
  }

  /** The error object a response carries for a Go error: an error with a code
      keeps code and message, any other one becomes an internal error. */
  function ToRpcError(err: Err): (e: RpcError)
    ensures e.Error() == err.Error()
    ensures err.Coded? ==> e == err.rpc
    ensures err.Plain? ==> e.Code() == InternalErrorCode
  {
    match err
    case Coded(r) => NewError(r.Code(), r.Error())
    case Plain(m) => NewInternalError(m)
  }

  /** `makeResponseJson`: nothing for a notification, whatever the outcome;
      otherwise a version-2.0 response echoing the request id verbatim, with
      the result as given and the error, if any, mapped to an error object. */
  function MakeResponse(c: Call, result: Option<Json>, err: Option<Err>): (r: Option<Response>)
    ensures r.None? <==> c.version == "2.0" && c.methodName != "" && c.id.None?
    ensures r.Some? ==> r.value.id == c.id && r.value.version == "2.0"
    ensures r.Some? ==> r.value.result == result
    ensures r.Some? ==> (r.value.error.Some? <==> err.Some?)
    ensures r.Some? && err.Some? ==> r.value.error.value.Error() == err.value.Error()
    ensures r.Some? && err.Some? && err.value.Coded? ==> r.value.error.value == err.value.rpc
    ensures r.Some? && err.Some? && err.value.Plain? ==> r.value.error.value.Code() == -32000
  {
    if ValidateRequest(c).None? && c.id.None? then None
    else
      var e := match err
        case None => None
        case Some(x) => Some(ToRpcError(x));
      Some(Response(c.id, Version, result, e))
  }
}
