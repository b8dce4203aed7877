/**
 * tasks/src/logs/logs.service.ts: building log records and handing them,
 * fire and forget, to the logs service. The client's outbox is the sequence
 * of records emitted on `logs.create`.
 */
module Logs {
  import opened Js

  const LOGS_CREATE := "logs.create"
  const ERROR_FALLBACK_MESSAGE := "Un error ocurrió"

  datatype LogRecord = LogRecord(
    level: string,
    message: Value,
    requestId: string,
    userId: string,
    eventType: string,
    serviceName: string,
    details: Value)

  /** The record `logError` builds for an error value. */
  function ErrorRecord(requestId: string, serviceName: string, userId: string, eventType: string, error: Value): (r: LogRecord)
    ensures r.level == "ERROR"
    ensures r.requestId == requestId && r.userId == userId && r.eventType == eventType && r.serviceName == serviceName
    // an error record always carries a message: the error's, or the fallback text
    ensures Truthy(r.message)
    ensures Truthy(Get(error, "message")) ==> r.message == Get(error, "message")
    // the details keep the error's message (even an empty one) and its stack
    ensures r.details == Object2("error", Get(error, "message"), "stack", Get(error, "stack"))
  {
    LogRecord("ERROR", Or(Get(error, "message"), Str(ERROR_FALLBACK_MESSAGE)), requestId, userId, eventType, serviceName,
      Object2("error", Get(error, "message"), "stack", Get(error, "stack")))
  }

  /** The record `logInfo` builds; `details` may be undefined. */
  function InfoRecord(requestId: string, serviceName: string, userId: string, eventType: string, message: Value, details: Value): (r: LogRecord)
    ensures r.level == "INFO" && r.message == message && r.details == details
    ensures r.requestId == requestId && r.userId == userId && r.eventType == eventType && r.serviceName == serviceName
  {
    LogRecord("INFO", message, requestId, userId, eventType, serviceName, details)
  }

  /** The two builders never produce the same record. */
  lemma LevelsDistinguishBuilders(rq: string, sn: string, u: string, ev: string, error: Value, rq': string, sn': string, u': string, ev': string, m: Value, d: Value)
    ensures ErrorRecord(rq, sn, u, ev, error) != InfoRecord(rq', sn', u', ev', m, d)
  {
    assert ErrorRecord(rq, sn, u, ev, error).level[0] == 'E';
  }

  class LoggerService {
    /** Every record emitted on `logs.create`, oldest first. Emission is not awaited and its failures never reach the caller. */
    var outbox: seq<LogRecord>

    constructor ()
      ensures outbox == []
    {
      outbox := [];
    }

    /** `sendLog`: exactly one record more on `logs.create`. */
    method SendLog(record: LogRecord)
      modifies this
      ensures outbox == old(outbox) + [record]
    {
      outbox := outbox + [record];
    }

    method LogError(requestId: string, serviceName: string, userId: string, eventType: string, error: Value)
      modifies this
      ensures outbox == old(outbox) + [ErrorRecord(requestId, serviceName, userId, eventType, error)]
    {
      SendLog(ErrorRecord(requestId, serviceName, userId, eventType, error));
    }

    method LogInfo(requestId: string, serviceName: string, userId: string, eventType: string, message: Value, details: Value)
      modifies this
      ensures outbox == old(outbox) + [InfoRecord(requestId, serviceName, userId, eventType, message, details)]
    {
      SendLog(InfoRecord(requestId, serviceName, userId, eventType, message, details));
    }
  }
}

/**
 * `logAndHandleError` of the auth and the tasks services: classify the
 * error, log one record at ERROR (status 500 and up) or INFO level, then hand
 * the error to the service's own `handleRpcError`.
 */
module LogHelpers {
  import opened Wrappers
  import opened Js
  import opened Errors
  import opened Logs

  const UNKNOWN := "unknown"

  /** The one record `logAndHandleError` emits; a missing request or user id reads 'unknown'. */
  function HandlerRecord(error: Thrown, requestId: Option<string>, serviceName: string, userId: Option<string>, eventType: string): (r: LogRecord)
    ensures r.level == "ERROR" <==> AtLeast(ExtractErrorDetails(error).status, 500)
    ensures r.level == "ERROR" || r.level == "INFO"
    ensures r.requestId == requestId.GetOr(UNKNOWN) && r.userId == userId.GetOr(UNKNOWN)
    ensures r.serviceName == serviceName && r.eventType == eventType
    ensures r.level == "INFO" ==> r.message == ExtractErrorDetails(error).message
    ensures r.level == "INFO" ==>
              r.details == Object2("message", ExtractErrorDetails(error).message, "status", ExtractErrorDetails(error).status)
    // `logError(..., { message, status })`: the record's message is the extracted one or the fallback text,
    // and its details keep that message with no stack
    ensures r.level == "ERROR" ==> r.message == Or(ExtractErrorDetails(error).message, Str(ERROR_FALLBACK_MESSAGE))
    ensures r.level == "ERROR" ==> r.details == Object2("error", ExtractErrorDetails(error).message, "stack", Undefined)
  {
    var d := ExtractErrorDetails(error);
    var rq := requestId.GetOr(UNKNOWN);
    var u := userId.GetOr(UNKNOWN);
    var details := Object2("message", d.message, "status", d.status);
    if AtLeast(d.status, 500) then ErrorRecord(rq, serviceName, u, eventType, details)
    else InfoRecord(rq, serviceName, u, eventType, d.message, details)
  }

  /** A status of exactly 500 is logged as an ERROR; 499 as INFO. */
  lemma ThresholdIs500(props: map<string, Value>)
    ensures HandlerRecord(OtherError(props["statusCode" := Num(500)] - {"response"}), None, "tasks", None, "e").level == "ERROR"
    ensures HandlerRecord(OtherError(props["statusCode" := Num(499)] - {"response"}), None, "tasks", None, "e").level == "INFO"
  {
    var e500 := OtherError(props["statusCode" := Num(500)] - {"response"});
    assert Get(Obj(e500.props), "statusCode") == Num(500);
    var e499 := OtherError(props["statusCode" := Num(499)] - {"response"});
    assert Get(Obj(e499.props), "statusCode") == Num(499);
  }

  /** A non-Rpc error that carries no status is logged at ERROR level with the generic message. */
  lemma SilentErrorLoggedAsInternal(error: Thrown, requestId: Option<string>, serviceName: string, userId: Option<string>, eventType: string)
    requires !CarriesStatus(error) && !error.RpcException?
    ensures HandlerRecord(error, requestId, serviceName, userId, eventType).level == "ERROR"
    ensures HandlerRecord(error, requestId, serviceName, userId, eventType).message == Str(DEFAULT_DETAILS_MESSAGE)
  {
  }

  /** The shared first half of both helpers: `logError` at 500 and up, `logInfo` below. */
  method LogClassified(error: Thrown, logger: LoggerService, requestId: Option<string>, serviceName: string, userId: Option<string>, eventType: string)
    modifies logger
    ensures logger.outbox == old(logger.outbox) + [HandlerRecord(error, requestId, serviceName, userId, eventType)]
  {
    var d := ExtractErrorDetails(error);
    var rq := requestId.GetOr(UNKNOWN);
    var u := userId.GetOr(UNKNOWN);
    if AtLeast(d.status, 500) {
      logger.LogError(rq, serviceName, u, eventType, Object2("message", d.message, "status", d.status));
    } else {
      logger.LogInfo(rq, serviceName, u, eventType, d.message, Object2("message", d.message, "status", d.status));
    }
  }

  /** auth/src/helpers/log-helper.ts: log, then always end by throwing. */
  method LogAndHandleErrorAuth(error: Thrown, logger: LoggerService, requestId: Option<string>, serviceName: string, userId: Option<string>, eventType: string)
    returns (c: Completion<()>)
    modifies logger
    ensures logger.outbox == old(logger.outbox) + [HandlerRecord(error, requestId, serviceName, userId, eventType)]
    ensures c == HandleRpcErrorAuth(error) && c.Throw?
  {
    LogClassified(error, logger, requestId, serviceName, userId, eventType);
    c := HandleRpcErrorAuth(error);
  }

  /**
   * tasks/src/helpers/log-helper.ts: log, then rethrow an RpcException; any
   * other error ends with a normal return (the generic error `handleRpcError`
   * returns is dropped).
   */
  method LogAndHandleErrorTasks(error: Thrown, logger: LoggerService, requestId: Option<string>, serviceName: string, userId: Option<string>, eventType: string)
    returns (c: Completion<()>)
    modifies logger
    ensures logger.outbox == old(logger.outbox) + [HandlerRecord(error, requestId, serviceName, userId, eventType)]
    ensures c.Throw? <==> error.RpcException?
    ensures c.Throw? ==> c.error == error
  {
    LogClassified(error, logger, requestId, serviceName, userId, eventType);
    var handled := HandleRpcErrorTasks(error);
    if handled.Throw? {
      c := Throw(handled.error);
    } else {
      c := Normal(());
    }
  }
}
