/**
 * What the services throw and catch, the classification of a caught error
 * into a status and a message (`extractErrorDetails`), and the two diverging
 * copies of `handleRpcError`.
 */
module Errors {
  import opened Js

  /** A value reaching a `catch` block. */
  datatype Thrown =
    | RpcException(payload: Value)            // `error.getError()`: an object, a string, ...
    | OtherError(props: map<string, Value>)   // any other error object and its own properties

  /** How a call ends: by returning a value or by throwing. */
  datatype Completion<T> = Normal(value: T) | Throw(error: Thrown)

  const INTERNAL_SERVER_ERROR: int := 500
  const DEFAULT_DETAILS_MESSAGE := "Internal server error"
  const INTERNAL_ERROR_MESSAGE := "Internal Server Error"

  /** `new RpcException({ message, status })` */
  function Rpc(message: string, status: int): Thrown {
    RpcException(Object2("message", Str(message), "status", Num(status)))
  }

  /** The error every non-Rpc failure is replaced with. */
  function InternalError(): Thrown {
    Rpc(INTERNAL_ERROR_MESSAGE, INTERNAL_SERVER_ERROR)
  }

  datatype ErrorDetails = ErrorDetails(status: Value, message: Value)

  /** The TypeError raised by reading `property` of undefined or null: it carries no status. */
  function PropertyReadError(holder: Value, property: string): (e: Thrown)
    ensures e.OtherError? && !CarriesStatus(e)
  {
    OtherError(map[
      "name" := Str("TypeError"),
      "message" := Str("Cannot read properties of " + (if holder == Null then "null" else "undefined") + " (reading '" + property + "')")])
  }

  /** True when the error carries a status of its own that `extractErrorDetails` picks up. */
  predicate CarriesStatus(e: Thrown) {
    match e
    case RpcException(p) => p.Obj? && Get(p, "status").Num?
    case OtherError(props) =>
      (Truthy(Get(Obj(props), "response")) && Truthy(Get(Get(Obj(props), "response"), "statusCode")))
      || Truthy(Get(Obj(props), "statusCode"))
  }

  /**
   * `extractErrorDetails`: status 500 and 'Internal server error' unless the
   * error says otherwise. An RpcException is read from its payload only; any
   * other error from `response.statusCode`/`response.message`, and failing
   * that from its own `statusCode`/`message`.
   */
  function ExtractErrorDetails(e: Thrown): (d: ErrorDetails)
    // an RpcException always yields a numeric status and a string message
    ensures e.RpcException? ==> d.status.Num? && d.message.Str?
    ensures e.RpcException? && e.payload.Obj? && Get(e.payload, "message").Str? ==> d.message == Get(e.payload, "message")
    ensures e.RpcException? && e.payload.Str? ==> d.message == e.payload && d.status == Num(500)
    // the status is the error's own exactly when it carries one, and 500 otherwise
    ensures !CarriesStatus(e) ==> d.status == Num(INTERNAL_SERVER_ERROR)
    ensures CarriesStatus(e) && e.RpcException? ==> d.status == Get(e.payload, "status")
    // the `response` of a non-Rpc error takes precedence over its own statusCode
    ensures e.OtherError? && Truthy(Get(Get(Obj(e.props), "response"), "statusCode")) ==>
      d.status == Get(Get(Obj(e.props), "response"), "statusCode") &&
      d.message == Or(Get(Get(Obj(e.props), "response"), "message"), Str(DEFAULT_DETAILS_MESSAGE))
    ensures e.OtherError? && !Truthy(Get(Get(Obj(e.props), "response"), "statusCode")) && CarriesStatus(e) ==>
      d.status == Get(Obj(e.props), "statusCode") && d.message == Or(Get(Obj(e.props), "message"), Str(DEFAULT_DETAILS_MESSAGE))
    // an RpcException without a string message, directly or in its object payload, gets the default message
    ensures e.RpcException? && !(e.payload.Str? || (e.payload.Obj? && Get(e.payload, "message").Str?)) ==>
      d.message == Str(DEFAULT_DETAILS_MESSAGE)
    // any other error without a status of its own is the default, 500 'Internal server error'
    ensures e.OtherError? && !CarriesStatus(e) ==> d == ErrorDetails(Num(INTERNAL_SERVER_ERROR), Str(DEFAULT_DETAILS_MESSAGE))
    // a message is never empty: it is a non-empty value or the default
    ensures !e.RpcException? ==> Truthy(d.message)
  {
    var default := ErrorDetails(Num(INTERNAL_SERVER_ERROR), Str(DEFAULT_DETAILS_MESSAGE));
    match e
    case RpcException(data) =>
      if data.Obj? then
        ErrorDetails(
          if Has(data, "status") && Get(data, "status").Num? then Get(data, "status") else Num(INTERNAL_SERVER_ERROR),
          if Has(data, "message") && Get(data, "message").Str? then Get(data, "message") else default.message)
      else if data.Str? then
        default.(message := data)
      else
        default
    case OtherError(props) =>
      var error := Obj(props);
      if Truthy(Get(error, "response")) && Truthy(Get(Get(error, "response"), "statusCode")) then
        ErrorDetails(Get(Get(error, "response"), "statusCode"), Or(Get(Get(error, "response"), "message"), default.message))
      else if Truthy(Get(error, "statusCode")) then
        ErrorDetails(Get(error, "statusCode"), Or(Get(error, "message"), default.message))
      else
        default
  }

  /**
   * `handleRpcError` of the auth service: never returns. An RpcException is
   * rethrown as it is; anything else becomes a generic 500 RpcException.
   */
  function HandleRpcErrorAuth(e: Thrown): (c: Completion<()>)
    ensures c.Throw?
    ensures e.RpcException? ==> c.error == e
    ensures !e.RpcException? ==> c.error == InternalError()
  {
    if e.RpcException? then Throw(e) else Throw(InternalError())
  }

  /**
   * `handleRpcError` of the tasks service: an RpcException is rethrown, any
   * other error is RETURNED (not thrown) as a generic 500 RpcException.
   */
  function HandleRpcErrorTasks(e: Thrown): (c: Completion<Thrown>)
    ensures c.Throw? <==> e.RpcException?
    ensures c.Throw? ==> c.error == e
    ensures c.Normal? ==> c.value == InternalError()
  {
    if e.RpcException? then Throw(e) else Normal(InternalError())
  }

  /** The auth variant discards the original error: JWT failures, database failures and so on all look alike. */
  lemma AuthHandlerForgetsCause(e1: Thrown, e2: Thrown)
    requires !e1.RpcException? && !e2.RpcException?
    ensures HandleRpcErrorAuth(e1) == HandleRpcErrorAuth(e2) == Throw(InternalError())
  {
  }

  /** The two variants agree on RpcExceptions and differ exactly in throwing or returning the generic error. */
  lemma HandlerVariantsDiffer(e: Thrown)
    ensures e.RpcException? ==> HandleRpcErrorTasks(e) == Throw(e) && HandleRpcErrorAuth(e) == Throw(e)
    ensures !e.RpcException? ==> HandleRpcErrorTasks(e) == Normal(HandleRpcErrorAuth(e).error)
  {
  }

  /** The generic error classifies as 500 'Internal Server Error'. */
  lemma InternalErrorDetails()
    ensures ExtractErrorDetails(InternalError()) == ErrorDetails(Num(500), Str(INTERNAL_ERROR_MESSAGE))
  {
  }
}
