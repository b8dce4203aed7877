/**
 * The gateway's two response interceptors: both move an error `statusCode`
 * carried in a reply body onto the HTTP response; the one under
 * interceptors/ also turns an RpcException into a 400 Bad Request.
 */
module GatewayInterceptors {
  import opened Wrappers
  import opened Js
  import opened Errors

  /** The HTTP response object whose status the interceptors set. */
  class HttpResponse {
    var statusCode: int

    constructor ()
      ensures statusCode == 200
    {
      statusCode := 200;
    }

    /** `response.status(code)` */
    method Status(code: int)
      modifies this
      ensures statusCode == code
    {
      statusCode := code;
    }
  }

  /** `const { statusCode, ...rest } = response` */
  function WithoutStatusCode(response: Value): (rest: Value)
    requires response.Obj?
    ensures rest.Obj? && rest.fields.Keys == response.fields.Keys - {"statusCode"}
    ensures forall k :: k in rest.fields ==> rest.fields[k] == response.fields[k]
  {
    Obj(response.fields - {"statusCode"})
  }

  /** The result of a `map` step: the body sent on, and the HTTP status set, if any. */
  datatype Mapped = Mapped(body: Value, status: Option<int>)

  /** `map` of interceptors/rpc-exception.interceptor.ts */
  function MapReply(response: Value): (m: Mapped)
    // an error code of 400 or more moves from the body to the HTTP status
    ensures m.status.Some? <==> response.Obj? && AtLeast(Get(response, "statusCode"), 400)
    ensures m.status.Some? ==> Num(m.status.value) == Get(response, "statusCode") && m.status.value >= 400
    ensures m.status.Some? ==> m.body == WithoutStatusCode(response)
    // anything else passes through untouched
    ensures m.status.None? ==> m.body == response
  {
    if Truthy(response) && response.Obj? && Has(response, "statusCode") && AtLeast(Get(response, "statusCode"), 400) then
      AtLeastPositiveIsNumber(Get(response, "statusCode"), 400);
      Mapped(WithoutStatusCode(response), Some(Get(response, "statusCode").n))
    else
      Mapped(response, None)
  }

  /** `map` of filters/exception.filter.ts: no `typeof` test, a truthiness test on `statusCode`. */
  function MapReplyFilter(response: Value): (m: Mapped)
    ensures m.status.Some? ==> m.status.value >= 400 && m.body.Obj? && "statusCode" !in m.body.fields
    ensures m.status.None? ==> m.body == response
  {
    if Truthy(response) && Truthy(Get(response, "statusCode")) && AtLeast(Get(response, "statusCode"), 400) then
      AtLeastPositiveIsNumber(Get(response, "statusCode"), 400);
      Mapped(WithoutStatusCode(response), Some(Get(response, "statusCode").n))
    else
      Mapped(response, None)
  }

  /** The two copies differ in their tests but map every reply alike. */
  lemma MapCopiesAgree(response: Value)
    ensures MapReplyFilter(response) == MapReply(response)
  {
    if AtLeast(Get(response, "statusCode"), 400) {
      AtLeastPositiveIsNumber(Get(response, "statusCode"), 400);
    }
  }

  /** What leaves the interceptor when the handler failed. */
  datatype Outgoing =
    | BadRequest(statusCode: Value, message: Value)   // `new BadRequestException({ statusCode, message })`, HTTP 400
    | Rethrown(error: Thrown)
    | TypeErrorRaised                                 // `'status' in null` throws inside catchError

  /** `catchError` of interceptors/rpc-exception.interceptor.ts */
  function MapError(error: Thrown): (o: Outgoing)
    // anything but an RpcException goes through unchanged
    ensures !error.RpcException? <==> o == Rethrown(error)
    // an RpcException always leaves as a 400, whatever its inner status
    ensures error.RpcException? && error.payload != Null ==> o.BadRequest?
    ensures o.BadRequest? && Has(error.payload, "status") ==> o.statusCode == Get(error.payload, "status")
    ensures o.BadRequest? && !Has(error.payload, "status") ==> o.statusCode == Num(500)
    ensures o.BadRequest? && Has(error.payload, "message") ==> o.message == Get(error.payload, "message")
    // a payload without a `message` (an object without one, or not an object at all) is itself the message
    ensures o.BadRequest? && !Has(error.payload, "message") ==> o.message == error.payload
    ensures o.TypeErrorRaised? <==> error == RpcException(Null)
  {
    match error
    case RpcException(errorResponse) =>
      // `typeof null === 'object'`, and `'status' in null` throws
      if errorResponse == Null then TypeErrorRaised
      else
        var statusCode := if errorResponse.Obj? && Has(errorResponse, "status") then Get(errorResponse, "status") else Num(500);
        var message := if errorResponse.Obj? && Has(errorResponse, "message") then Get(errorResponse, "message") else errorResponse;
        BadRequest(statusCode, message)
    case OtherError(_) => Rethrown(error)
  }

  /** The `map` step with its effect on the HTTP response. */
  method InterceptReply(res: HttpResponse, response: Value) returns (body: Value)
    modifies res
    ensures body == MapReply(response).body
    ensures MapReply(response).status.Some? ==> res.statusCode == MapReply(response).status.value
    ensures MapReply(response).status.None? ==> res.statusCode == old(res.statusCode)
  {
    var m := MapReply(response);
    if m.status.Some? {
      res.Status(m.status.value);
    }
    body := m.body;
  }

  /** The `map` step of the filters/ copy with its effect on the HTTP response. */
  method InterceptReplyFilter(res: HttpResponse, response: Value) returns (body: Value)
    modifies res
    ensures body == MapReplyFilter(response).body
    ensures MapReplyFilter(response).status.Some? ==> res.statusCode == MapReplyFilter(response).status.value
    ensures MapReplyFilter(response).status.None? ==> res.statusCode == old(res.statusCode)
  {
    var m := MapReplyFilter(response);
    if m.status.Some? {
      res.Status(m.status.value);
    }
    body := m.body;
  }
}
