/**
 BaseResponseInterceptor: every way a handler can end becomes a response with a code from the
 code table, and the HTTP status is set on the side.
 */
module Responses {
  import opened Prelude
  import opened SessionRecord

  const SYSTEM_CODES := [
    "SUCCESS", "FAILED", "TIMEOUT", "SORRY_SOMETHING_WENT_WRONG", "PLEASE_THROW_SYSTEM_CODE",
    "TOKEN_IS_NOT_ALLOW_TO_REFRESH", "TOKEN_IS_INVALID", "BAD_REQUEST", "UNAUTHORIZED", "FORBIDDEN",
    "SESSION_NOT_AVAILABLE", "INSUFFICIENT_PERMISSION", "RECORD_NOT_FOUND", "USER_NOT_EXIT", "NOT_CONNECT_CASH",
    "CANT_VERIFY_PERMISSION", "AGENT_EXISTING", "ACCOUNT_INVALID", "ICORE_PROBLEM", "INTERNAL_ERROR_OCCURRED",
    "FETCH_REQUEST_FAILED"]

  const SUCCESS := "SUCCESS"
  const UNKNOWN := "PLEASE_THROW_SYSTEM_CODE"

  /** ErrorDetailWithParams; `data` is None when it is falsy. */
  datatype ErrorDetail = ErrorDetail(code: string, params: map<string, string>, data: Option<string>)

  /** How a handler ends: it returns, throws an HttpException, or throws some other error. */
  datatype Ending =
    | Returned(data: string)
    | ThrewHttp(status: int, message: string, detail: Option<ErrorDetail>)
    | ThrewOther(message: string)

  /** The body of a response: some text, or the exception that was thrown. */
  datatype Payload = Text(text: string) | Exception

  /** `debugged` says that the error is attached for debugging. */
  datatype Response = Response(systemCode: string, data: Payload, debugged: bool)

  /** The code an exception asks for. */
  predicate AsksFor(e: Ending, code: string) {
    e.ThrewHttp? && code == (if e.detail.Some? then e.detail.value.code else e.message)
  }

  function CodeForStatus(status: int): string {
    if status == 400 then "BAD_REQUEST"
    else if status == 401 then "UNAUTHORIZED"
    else if status == 403 then "FORBIDDEN"
    else "SORRY_SOMETHING_WENT_WRONG"
  }

  function KnownOr(code: string, other: string): string {
    if code in SYSTEM_CODES then code else other
  }

  /** The answer to each way of ending, given the status before and whether errors are shown. */
  ghost predicate Answers(resp: Response, e: Ending, status: int, show: bool) {
    match e
    case Returned(data) => resp == Response("SUCCESS", Text(data), false)
    case ThrewHttp(_, message, detail) =>
      && !resp.debugged
      && resp.systemCode == KnownOr(if detail.Some? then detail.value.code else message, "PLEASE_THROW_SYSTEM_CODE")
      && resp.data == (if detail.Some? && detail.value.data.Some? then Text(detail.value.data.value) else Exception)
    case ThrewOther(message) =>
      && resp.debugged == show && resp.data == Text(message)
      && resp.systemCode == (
           if status == 400 then "BAD_REQUEST" else if status == 401 then "UNAUTHORIZED"
           else if status == 403 then "FORBIDDEN" else "SORRY_SOMETHING_WENT_WRONG")
  }

  /** The HTTP status after each way of ending. */
  ghost predicate StatusAfter(status': int, e: Ending, status: int) {
    match e
    case Returned(_) => status' == status
    case ThrewHttp(code, _, _) => status' == code
    case ThrewOther(_) => status' == if status < 300 then 500 else status
  }

  lemma StatusCodesKnown(status: int)
    ensures CodeForStatus(status) in SYSTEM_CODES
    ensures CodeForStatus(status) != SUCCESS && CodeForStatus(status) != UNKNOWN
  {
    assert SYSTEM_CODES[7] == "BAD_REQUEST" && SYSTEM_CODES[8] == "UNAUTHORIZED";
    assert SYSTEM_CODES[9] == "FORBIDDEN" && SYSTEM_CODES[3] == "SORRY_SOMETHING_WENT_WRONG";
  }

  lemma NamedCodesKnown()
    ensures SUCCESS in SYSTEM_CODES && UNKNOWN in SYSTEM_CODES && SUCCESS != UNKNOWN
  {
    assert SYSTEM_CODES[0] == SUCCESS && SYSTEM_CODES[4] == UNKNOWN;
  }

  class HttpResponse {
    var statusCode: int

    constructor ()
      ensures statusCode == 200
    {
      statusCode := 200;
    }
  }

  class ResponseInterceptor {
    const showDebugError: bool

    constructor (showDebugError: bool)
      ensures this.showDebugError == showDebugError
    {
      this.showDebugError := showDebugError;
    }

    method TranslateResponse(code: string, data: Payload, debug: bool) returns (resp: Response)
      ensures resp.systemCode in SYSTEM_CODES && resp.data == data
      ensures code in SYSTEM_CODES ==> resp.systemCode == code
      ensures code !in SYSTEM_CODES ==> resp.systemCode == UNKNOWN
      ensures resp.debugged <==> resp.systemCode != SUCCESS && showDebugError && debug
    {
      NamedCodesKnown();
      var systemCode := if code in SYSTEM_CODES then code else UNKNOWN;
      resp := Response(systemCode, data, systemCode != SUCCESS && showDebugError && debug);
    }

    /**
     Every code that goes out is in the table; it is SUCCESS exactly if the handler returned or
     threw an exception asking for SUCCESS; an exception's code goes out if the table has it; and
     an error that is no HttpException turns every status below 300 into 500.
     */
    method Intercept(e: Ending, res: HttpResponse) returns (resp: Response)
      modifies res
      ensures resp.systemCode in SYSTEM_CODES
      ensures resp.systemCode == SUCCESS <==> e.Returned? || AsksFor(e, SUCCESS)
      ensures forall code :: AsksFor(e, code) ==> resp.systemCode == if code in SYSTEM_CODES then code else UNKNOWN
      ensures e.ThrewOther? ==> resp.systemCode == CodeForStatus(old(res.statusCode)) && resp.data == Text(e.message)
      ensures e.Returned? ==> resp.data == Text(e.data) && res.statusCode == old(res.statusCode)
      ensures e.ThrewHttp? ==> res.statusCode == e.status
      ensures e.ThrewHttp? ==>
                resp.data == if e.detail.Some? && e.detail.value.data.Some?
                             then Text(e.detail.value.data.value) else Exception
      ensures Answers(resp, e, old(res.statusCode), showDebugError)
      ensures StatusAfter(res.statusCode, e, old(res.statusCode))
      ensures resp.debugged <==> e.ThrewOther? && showDebugError
    {
      NamedCodesKnown();
      match e
      case Returned(data) =>
        resp := TranslateResponse(SUCCESS, Text(data), false);
      case ThrewHttp(status, message, detail) =>
        res.statusCode := status;
        var code, errorRes := message, Exception;
        if detail.Some? {
          code := detail.value.code;
          if detail.value.data.Some? {
            errorRes := Text(detail.value.data.value);
          }
        }
        resp := TranslateResponse(code, errorRes, false);
      case ThrewOther(message) =>
        var httpCode := res.statusCode;
        var systemCode := "SORRY_SOMETHING_WENT_WRONG";
        if httpCode == 400 {
          systemCode := "BAD_REQUEST";
        } else if httpCode == 401 {
          systemCode := "UNAUTHORIZED";
        } else if httpCode == 403 {
          systemCode := "FORBIDDEN";
        } else if httpCode < 300 {
          res.statusCode := 500;
        }
        StatusCodesKnown(httpCode);
        resp := TranslateResponse(systemCode, Text(message), true);
    }
  }

  // ---- Errors of the session services ----

  const FAILED_READ := "Failed to get session value"

  /** How a handler ends that lets an error of the session services through. */
  function EndingOf(e: Error): Ending {
    match e
    case SessionNotAvailable => ThrewHttp(400, "SESSION_NOT_AVAILABLE", None)
    case SorrySomethingWentWrong => ThrewHttp(500, "SORRY_SOMETHING_WENT_WRONG", None)
    case Unauthorized => ThrewHttp(401, FAILED_READ, None)
    case TypeError => ThrewOther("Cannot read properties of undefined")
    case StoreError => ThrewOther("ERR invalid expire time in 'setex' command")
  }

  predicate AsksSuccess(e: Ending) {
    e.Returned? || AsksFor(e, SUCCESS)
  }

  lemma ServiceErrorsFail(e: Error)
    ensures !AsksSuccess(EndingOf(e))
  {
  }

  lemma NotInTable(code: string)
    requires |code| > 1 && code[1] == 'a'
    ensures code !in SYSTEM_CODES
  {
    assert forall i :: 0 <= i < |SYSTEM_CODES| ==> |SYSTEM_CODES[i]| > 1 && SYSTEM_CODES[i][1] != 'a';
  }

  lemma FailedReadNotInTable()
    ensures FAILED_READ !in SYSTEM_CODES
  {
    NotInTable(FAILED_READ);
  }

  lemma OtherCodesInTable()
    ensures "SESSION_NOT_AVAILABLE" in SYSTEM_CODES && "SORRY_SOMETHING_WENT_WRONG" in SYSTEM_CODES
  {
    assert SYSTEM_CODES[10] == "SESSION_NOT_AVAILABLE" && SYSTEM_CODES[3] == "SORRY_SOMETHING_WENT_WRONG";
  }

  /** An exception that asks for a code the table does not have. */
  ghost predicate AsksForUnknown(e: Ending) {
    exists code :: AsksFor(e, code) && code !in SYSTEM_CODES
  }

  /** Of the services' errors exactly the failing read asks for a code that is not in the table. */
  lemma FailedReadIsUnknown(e: Error)
    ensures AsksForUnknown(EndingOf(e)) <==> e == Unauthorized
  {
    FailedReadNotInTable();
    OtherCodesInTable();
    assert e == Unauthorized ==> AsksFor(EndingOf(e), FAILED_READ);
  }

  /** So its response carries PLEASE_THROW_SYSTEM_CODE, with status 401. */
  method AnswerFailedRead(responses: ResponseInterceptor, res: HttpResponse) returns (resp: Response)
    modifies res
    ensures resp.systemCode == UNKNOWN && res.statusCode == 401
  {
    FailedReadNotInTable();
    resp := responses.Intercept(EndingOf(Unauthorized), res);
    assert AsksFor(EndingOf(Unauthorized), FAILED_READ);
  }
}
