/** The wire form of responses, as the struct tags of `response` and
    `rpcError` lay it out: `id` always (an absent id is written `null`),
    `jsonrpc` always, `result` and `error` only when present. */
module Codec {
  import opened Wrappers
  import opened Json
  import opened Errors
  import opened Protocol
  import opened Server

  /** The `id` member: a raw id is copied verbatim, a nil one is `null`. */
  function WireId(id: Option<Json>): (j: Json)
    ensures id.Some? ==> j == id.value
    ensures id.None? ==> j == JNull
  {
    id.GetOr(JNull)
  }

  /** An error object: `{"code": ..., "message": ...}`. */
  function EncodeError(e: RpcError): (j: Json)
    ensures j.JObj? && Get(j.members, "code") == Some(JNum(e.Code()))
    ensures Get(j.members, "message") == Some(JStr(e.Error()))
  {
    JObj([("code", JNum(e.code)), ("message", JStr(e.message))])
  }

  /** Reads an error object back. */
  function DecodeError(j: Json): Option<RpcError> {
    if !j.JObj? then None
    else
      match (Get(j.members, "code"), Get(j.members, "message"))
      case (Some(JNum(c)), Some(JStr(m))) => Some(RpcError(c, m))
      case _ => None
  }

  /** The optional members of a response object, each omitted when empty. */
  function OptionalMembers(rsp: Response): seq<(string, Json)> {
    (if rsp.result.Some? then [("result", rsp.result.value)] else [])
    + (if rsp.error.Some? then [("error", EncodeError(rsp.error.value))] else [])
  }

  /** A response object. */
  function EncodeResponse(rsp: Response): (j: Json)
    ensures j.JObj?
    ensures Get(j.members, "id") == Some(WireId(rsp.id))
    ensures Get(j.members, "jsonrpc") == Some(JStr(rsp.version))
    ensures Get(j.members, "result") == rsp.result
    ensures rsp.error.None? <==> Get(j.members, "error").None?
    ensures rsp.error.Some? ==> Get(j.members, "error") == Some(EncodeError(rsp.error.value))
    ensures forall m :: m in j.members ==> m.0 in {"id", "jsonrpc", "result", "error"}
  {
    var members := [("id", WireId(rsp.id)), ("jsonrpc", JStr(rsp.version))] + OptionalMembers(rsp);
    GetOptional(rsp);
    MemberNames(rsp);
    JObj(members)
  }

  /** A response object has no members besides the four of `response`. */
  lemma MemberNames(rsp: Response)
    ensures forall m :: m in [("id", WireId(rsp.id)), ("jsonrpc", JStr(rsp.version))] + OptionalMembers(rsp)
                        ==> m.0 in {"id", "jsonrpc", "result", "error"}
  {
    var front := [("id", WireId(rsp.id)), ("jsonrpc", JStr(rsp.version))];
    var opt := OptionalMembers(rsp);
    forall m: (string, Json) | m in front + opt
      ensures m.0 in {"id", "jsonrpc", "result", "error"}
    {
      assert m in front || m in opt;
    }
  }

  /** Looking a name up in the optional members finds what was put there. */
  lemma GetOptional(rsp: Response)
    ensures Get(OptionalMembers(rsp), "result") == rsp.result
    ensures Get(OptionalMembers(rsp), "error") == (if rsp.error.Some? then Some(EncodeError(rsp.error.value)) else None)
    ensures Get([("id", WireId(rsp.id)), ("jsonrpc", JStr(rsp.version))] + OptionalMembers(rsp), "result") == rsp.result
    ensures Get([("id", WireId(rsp.id)), ("jsonrpc", JStr(rsp.version))] + OptionalMembers(rsp), "error")
         == Get(OptionalMembers(rsp), "error")
  {
  }

  /** Reads a response object back. */
  function DecodeResponse(j: Json): Option<Response> {
    if !j.JObj? then None
    else
      match (Get(j.members, "id"), Get(j.members, "jsonrpc"))
      case (Some(id), Some(JStr(v))) =>
        (match Get(j.members, "error")
         case None => Some(Response(Some(id), v, Get(j.members, "result"), None))
         case Some(ej) =>
           (match DecodeError(ej)
            case None => None
            case Some(e) => Some(Response(Some(id), v, Get(j.members, "result"), Some(e)))))
      case _ => None
  }

  /** The serialised answer of `ServeRequest`: absent stays absent, a batch is
      an array of response objects. */
  function EncodeReply(r: Option<Reply>): (j: Option<Json>)
    ensures j.None? <==> r.None?
    ensures r.Some? && r.value.Batch? ==> j.value.JArr? && |j.value.items| == |r.value.responses|
    ensures r.Some? && r.value.Single? ==> j == Some(EncodeResponse(r.value.response))
    ensures r.Some? && r.value.Batch? ==>
      forall i :: 0 <= i < |r.value.responses| ==> j.value.items[i] == EncodeResponse(r.value.responses[i])
  {
    match r
    case None => None
    case Some(Single(rsp)) => Some(EncodeResponse(rsp))
    case Some(Batch(rs)) => Some(JArr(seq(|rs|, i requires 0 <= i < |rs| => EncodeResponse(rs[i]))))
  }

  /** Error objects survive a round trip. */
  lemma ErrorRoundTrip(e: RpcError)
    ensures DecodeError(EncodeError(e)) == Some(e)
  {
  }

  /** Response objects survive a round trip, except that a nil id comes back
      as the `null` it was written as. */
  lemma ResponseRoundTrip(rsp: Response)
    ensures DecodeResponse(EncodeResponse(rsp)) == Some(rsp.(id := Some(WireId(rsp.id))))
    ensures rsp.id.Some? ==> DecodeResponse(EncodeResponse(rsp)) == Some(rsp)
  {
    GetOptional(rsp);
    if rsp.error.Some? {
      ErrorRoundTrip(rsp.error.value);
    }
  }
}
