/**
 * `RpcExceptionFilter.catch` of the auth and the tasks services: the error
 * envelope `{message, statusCode, status}` built from an RpcException's payload.
 */
module ExceptionFilters {
  import opened Js

  const FILTER_DEFAULT_MESSAGE := "Internal Server Error"

  /** The envelope's `status` label. */
  function Label(status: Value): (l: string)
    // 'error' for a status of 500 or more, 'fail' for anything else, missing statuses included
    ensures l == "error" <==> AtLeast(status, 500)
    ensures l == "fail" <==> !AtLeast(status, 500)
  {
    if AtLeast(status, 500) then "error" else "fail"
  }

  /** auth/src/filters/exception.filter.ts */
  function CatchAuth(errorResponse: Value): (r: Value)
    // exactly three fields
    ensures r.Obj? && r.fields.Keys == {"message", "statusCode", "status"}
    // the message is the payload's if it has a non-empty one, and the default otherwise
    ensures Truthy(Get(errorResponse, "message")) ==> r.fields["message"] == Get(errorResponse, "message")
    ensures !Truthy(Get(errorResponse, "message")) ==> r.fields["message"] == Str(FILTER_DEFAULT_MESSAGE)
    // the code is the payload's status unless that is missing or 0, which give 500
    ensures Truthy(Get(errorResponse, "status")) ==> r.fields["statusCode"] == Get(errorResponse, "status")
    ensures !Truthy(Get(errorResponse, "status")) ==> r.fields["statusCode"] == Num(500)
    // 'error' for a payload status of 500 or more, 'fail' for everything else
    ensures r.fields["status"] == Str("error") <==> AtLeast(Get(errorResponse, "status"), 500)
    ensures r.fields["status"] == Str("error") || r.fields["status"] == Str("fail")
  {
    Obj(map[
      "message" := Or(Get(errorResponse, "message"), Str(FILTER_DEFAULT_MESSAGE)),
      "statusCode" := Or(Get(errorResponse, "status"), Num(500)),
      "status" := Str(Label(Get(errorResponse, "status")))
    ])
  }

  /** tasks/src/tasks/filters/exception.filter.ts: the same envelope as the auth copy, field for field. */
  function CatchTasks(errorResponse: Value): (r: Value)
    ensures r == CatchAuth(errorResponse)
  {
    var status := Get(errorResponse, "status");
    Obj(map[
      "message" := if Truthy(Get(errorResponse, "message")) then Get(errorResponse, "message") else Str("Internal Server Error"),
      "statusCode" := if Truthy(status) then status else Num(500),
      "status" := if AtLeast(status, 500) then Str("error") else Str("fail")
    ])
  }

  /**
   * A payload without a status (or a payload that is not an object) is
   * reported with code 500 but labelled 'fail', the label of a client error.
   */
  lemma MissingStatusIsFailWith500(errorResponse: Value)
    requires Get(errorResponse, "status") == Undefined
    ensures Get(CatchAuth(errorResponse), "statusCode") == Num(500)
    ensures Get(CatchAuth(errorResponse), "status") == Str("fail")
  {
  }

  /** Whenever the label is 'error', the code is the payload's own and at least 500. */
  lemma ErrorLabelMeansServerCode(errorResponse: Value)
    requires Get(CatchAuth(errorResponse), "status") == Str("error")
    ensures Get(CatchAuth(errorResponse), "statusCode") == Get(errorResponse, "status")
    ensures AtLeast(Get(CatchAuth(errorResponse), "statusCode"), 500)
  {
    AtLeastPositiveIsNumber(Get(errorResponse, "status"), 500);
  }
}
