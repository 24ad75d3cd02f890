/** The error taxonomy of the server: the `Error` interface, its `rpcError`
    implementation, the four sentinel errors and the two constructors. The
    codes are those of section 5.1 of the JSON-RPC 2.0 Specification. */
module Errors {

  /** An `rpcError`: an error that carries a JSON-RPC code besides its message. */
  datatype RpcError = RpcError(code: int, message: string) {

    /** The `Code()` accessor of the `Error` interface. */
    function Code(): int { code }

    /** The `Error()` accessor: the human-readable message. */
    function Error(): string { message }
  }

  /** The code every error without a code of its own is reported under. */
  const InternalErrorCode: int := -32000

  const ErrParseError: RpcError := RpcError(-32700, "Parse error")
  const ErrInvalidRequest: RpcError := RpcError(-32600, "Invalid request")
  const ErrMethodNotFound: RpcError := RpcError(-32601, "Method not found")
  const ErrInvalidParams: RpcError := RpcError(-32602, "Invalid Params")

  /** Builds an error with the given code and message. */
  function NewError(code: int, msg: string): (e: RpcError)
    ensures e.Code() == code && e.Error() == msg
  {
    RpcError(code, msg)
  }

  /** Builds an error under the internal code, keeping the message. */
  function NewInternalError(msg: string): (e: RpcError)
    ensures e.Code() == InternalErrorCode && e.Error() == msg
    ensures e == NewError(-32000, msg)
  {
    NewError(InternalErrorCode, msg)
  }

  /** A Go `error` value as a handler may return it: either it also satisfies
      the `Error` interface, and so carries a code, or it only has a message. */
  datatype Err = Coded(rpc: RpcError) | Plain(msg: string) {

    /** The message every Go error has. */
    function Error(): string {
      match this
      case Coded(e) => e.Error()
      case Plain(m) => m
    }
  }

  /** `context.DeadlineExceeded`: a plain error, it has no code. */
  const DeadlineExceeded: Err := Plain("context deadline exceeded")

  /** The sentinel codes are pairwise distinct, and none is the internal code,
      so a client can tell every protocol failure apart from a handler failure. */
  lemma SentinelCodesDistinct()
    ensures ErrParseError.Code() == -32700 && ErrParseError.Error() == "Parse error"
    ensures ErrInvalidRequest.Code() == -32600 && ErrInvalidRequest.Error() == "Invalid request"
    ensures ErrMethodNotFound.Code() == -32601 && ErrMethodNotFound.Error() == "Method not found"
    ensures ErrInvalidParams.Code() == -32602 && ErrInvalidParams.Error() == "Invalid Params"
    ensures var codes := [ErrParseError.Code(), ErrInvalidRequest.Code(),
                          ErrMethodNotFound.Code(), ErrInvalidParams.Code(), InternalErrorCode];
            forall i, j :: 0 <= i < j < |codes| ==> codes[i] != codes[j]
  {
  }
}
