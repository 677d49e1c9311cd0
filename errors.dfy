/**
 * Error values and the Express middlewares that turn them into responses:
 * the `ApiError` record and its factories, `errorConverter`,
 * `errorHandler`, `notFound`, and `validate`, which maps zod issues to
 * one "bad request" error. Stack traces are strings supplied by the
 * caller (`Error.captureStackTrace` is outside the model), as is the
 * `http-status` table of reason phrases.
 */
module Errors {
  import opened Wrappers
  import opened Text
  import opened Url
  import opened Json
  import opened Schemas

  const BadRequestStatus := 400
  const UnauthorizedStatus := 401
  const ForbiddenStatus := 403
  const NotFoundStatus := 404
  const ConflictStatus := 409
  const InternalStatus := 500

  /** An `ApiError`; it is never changed after construction, so it is a value here. */
  datatype ApiError = ApiError(statusCode: int, message: string, errors: Option<seq<Json>>,
                               isOperational: bool, stack: string)

  /**
   * `new ApiError(statusCode, message, errors, isOperational, stack)`: a
   * non-empty `stack` is kept verbatim, an empty one is replaced by the
   * trace captured at construction.
   */
  function NewApiError(statusCode: int, message: string, errors: Option<seq<Json>>,
                       isOperational: bool, stack: string, captured: string): (e: ApiError)
    ensures e.statusCode == statusCode && e.message == message && e.errors == errors
    ensures e.isOperational == isOperational
    ensures stack != "" ==> e.stack == stack
    ensures stack == "" ==> e.stack == captured
  {
    ApiError(statusCode, message, errors, isOperational, if stack != "" then stack else captured)
  }

  /** The factories leave `isOperational` and `stack` at their defaults. */
  function Make(statusCode: int, message: string, errors: Option<seq<Json>>, captured: string): ApiError {
    NewApiError(statusCode, message, errors, true, "", captured)
  }

  function BadRequest(message: string, errors: Option<seq<Json>>, captured: string): ApiError {
    Make(BadRequestStatus, message, errors, captured)
  }

  function Unauthorized(message: Option<string>, captured: string): ApiError {
    Make(UnauthorizedStatus, message.GetOr("Unauthorized"), None, captured)
  }

  function Forbidden(message: Option<string>, captured: string): ApiError {
    Make(ForbiddenStatus, message.GetOr("Forbidden"), None, captured)
  }

  function NotFound(message: Option<string>, captured: string): ApiError {
    Make(NotFoundStatus, message.GetOr("Not Found"), None, captured)
  }

  function Conflict(message: string, captured: string): ApiError {
    Make(ConflictStatus, message, None, captured)
  }

  function Internal(message: Option<string>, errors: Option<seq<Json>>, captured: string): ApiError {
    Make(InternalStatus, message.GetOr("Internal Server Error"), errors, captured)
  }

  /** Every factory builds an operational error with a fresh trace and its own status code. */
  lemma FactoryStatuses(message: string, m: Option<string>, errors: Option<seq<Json>>, captured: string)
    ensures BadRequest(message, errors, captured) == ApiError(400, message, errors, true, captured)
    ensures Unauthorized(m, captured).statusCode == 401 && Forbidden(m, captured).statusCode == 403
    ensures NotFound(m, captured).statusCode == 404 && Conflict(message, captured).statusCode == 409
    ensures Internal(m, errors, captured).statusCode == 500 && Internal(m, errors, captured).errors == errors
    ensures m.None? ==> (&& Unauthorized(m, captured).message == "Unauthorized"
                         && Forbidden(m, captured).message == "Forbidden"
                         && NotFound(m, captured).message == "Not Found"
                         && Internal(m, errors, captured).message == "Internal Server Error")
    ensures m.Some? ==> (&& Unauthorized(m, captured).message == m.value
                         && Forbidden(m, captured).message == m.value
                         && NotFound(m, captured).message == m.value
                         && Internal(m, errors, captured).message == m.value)
    ensures Conflict(message, captured).message == message
    ensures Unauthorized(m, captured).errors.None? && Forbidden(m, captured).errors.None?
    ensures Unauthorized(m, captured).isOperational && Conflict(message, captured).isOperational
  {
  }

  // ---- wiki-scraper-backend/src/middlewares/error.ts ----

  /**
   * What reaches an error middleware: an `ApiError`, or any other thrown
   * value, seen through the three properties the converter reads. A
   * `statusCode` of 0 or a missing one is falsy.
   */
  datatype Thrown =
    | Api(error: ApiError)
    | Other(statusCode: Option<int>, message: string, stack: string)

  /** `http-status`'s reason phrase for a code, or "" when it has none. */
  type StatusText = int -> string

  /** `errorConverter`: what it passes to `next`. */
  function ErrorConverter(err: Thrown, statusText: StatusText, captured: string): (e: ApiError)
    ensures err.Api? ==> e == err.error
    ensures err.Other? ==>
      && e.statusCode == (if err.statusCode.Some? && err.statusCode.value != 0 then err.statusCode.value else InternalStatus)
      && e.message == (if err.message != "" then err.message
                       else if statusText(e.statusCode) != "" then statusText(e.statusCode)
                       else "Internal Server Error")
      && !e.isOperational && e.errors.None?
      && (err.stack != "" ==> e.stack == err.stack)
      && (err.stack == "" ==> e.stack == captured)
  {
    match err
    case Api(e) => e
    case Other(code, message, stack) =>
      var statusCode := if code.Some? && code.value != 0 then code.value else InternalStatus;
      var text := if message != "" then message
                  else if statusText(statusCode) != "" then statusText(statusCode)
                  else "Internal Server Error";
      NewApiError(statusCode, text, None, false, stack, captured)
  }

  /** An HTTP reply from an Express handler: the status set and the JSON sent. */
  datatype Reply = Reply(status: int, body: Json)

  /** `errorHandler`: `{ code, message, errors?, stack? }` sent with the error's status. */
  function ErrorHandler(e: ApiError, isDevelopment: bool): (r: Reply)
    ensures r.status == e.statusCode
    ensures r.body.JObj? && Get(r.body.fields, "code") == Some(JNum(e.statusCode))
    ensures Get(r.body.fields, "message") == Some(JStr(e.message))
    ensures HasKey(r.body.fields, "errors") <==> e.errors.Some?
    ensures e.errors.Some? ==> Get(r.body.fields, "errors") == Some(JArr(e.errors.value))
    ensures HasKey(r.body.fields, "stack") <==> isDevelopment
    ensures isDevelopment ==> Get(r.body.fields, "stack") == Some(JStr(e.stack))
  {
    var base := [("code", JNum(e.statusCode)), ("message", JStr(e.message))];
    var errors := if e.errors.Some? then [("errors", JArr(e.errors.value))] else [];
    var stack := if isDevelopment then [("stack", JStr(e.stack))] else [];
    PartsRead(base, errors, stack, "code");
    PartsRead(base, errors, stack, "message");
    PartsRead(base, errors, stack, "errors");
    PartsRead(base, errors, stack, "stack");
    Reply(e.statusCode, JObj(base + errors + stack))
  }

  /** Reading `a + b + c` at `k`: the last part that has `k` answers. */
  lemma PartsRead(a: seq<(string, Json)>, b: seq<(string, Json)>, c: seq<(string, Json)>, k: string)
    ensures HasKey(a + b + c, k) <==> HasKey(a, k) || HasKey(b, k) || HasKey(c, k)
    ensures Get(a + b + c, k) == if HasKey(c, k) then Get(c, k) else if HasKey(b, k) then Get(b, k) else Get(a, k)
  {
    GetAppend(a + b, c, k);
    GetAppend(a, b, k);
    HasKeyAppend(a + b, c, k);
    HasKeyAppend(a, b, k);
  }

  /** `notFound`: always forwards a 404 whose message is `Not found` (lower-case, unlike the factory). */
  function NotFoundForward(captured: string): (e: ApiError)
    ensures e.statusCode == NotFoundStatus && e.message == "Not found" && e.isOperational && e.errors.None?
  {
    NewApiError(NotFoundStatus, "Not found", None, true, "", captured)
  }

  /** An error that carries no status and no message ends as a 500 whose status and `code` agree. */
  lemma UnknownErrorBecomes500(stack: string, statusText: StatusText, captured: string, isDevelopment: bool)
    ensures var r := ErrorHandler(ErrorConverter(Other(None, "", stack), statusText, captured), isDevelopment);
            r.status == 500 && Get(r.body.fields, "code") == Some(JNum(500))
  {
  }

  // ---- src/middlewares/validate.ts ----

  /** `path.join('.')`: keys as they are, indices in decimal. */
  function PathText(path: seq<PathSeg>): string {
    Join(SegmentTexts(path), ".")
  }

  function SegmentTexts(path: seq<PathSeg>): (r: seq<string>)
    ensures |r| == |path|
    ensures forall i :: 0 <= i < |path| && path[i].Key? ==> r[i] == path[i].name
    ensures forall i :: 0 <= i < |path| && path[i].Index? ==> r[i] == NatToString(path[i].i)
  {
    seq(|path|, i requires 0 <= i < |path| => if path[i].Key? then path[i].name else NatToString(path[i].i))
  }

  /** The text `validate` reports for one issue. */
  function IssueText(issue: Issue): string {
    PathText(issue.path) + " is " + issue.message
  }

  /** One `{ message }` object per issue, in issue order. */
  function IssueMessages(issues: seq<Issue>): (r: seq<Json>)
    ensures |r| == |issues|
    ensures forall i :: 0 <= i < |issues| ==> r[i] == JObj([("message", JStr(IssueText(issues[i])))])
  {
    seq(|issues|, i requires 0 <= i < |issues| => JObj([("message", JStr(IssueText(issues[i])))]))
  }

  /**
   * `validate(schema)`: parses `{ body, query, params }`; `next()` on
   * success, `next(badRequest('Validation error', messages))` for zod
   * issues, and `next(err)` for anything else the parse threw, which is
   * `thrown` here.
   */
  function Validate(parse: UrlParser, schema: Schema, body: Json, query: Json, params: Json,
                    thrown: Option<Thrown>, captured: string): (next: Option<Thrown>)
  {
    if thrown.Some? then thrown
    else
      var issues := Run(parse, schema, Some(JObj([("body", body), ("query", query), ("params", params)]))).issues;
      if issues == [] then None
      else Some(Api(BadRequest("Validation error", Some(IssueMessages(issues)), captured)))
  }

  /** `next` gets no argument exactly when the parse neither threw nor found an issue. */
  lemma ValidateNextIff(parse: UrlParser, schema: Schema, body: Json, query: Json, params: Json,
                        thrown: Option<Thrown>, captured: string)
    ensures Validate(parse, schema, body, query, params, thrown, captured).None? <==>
      thrown.None? && Accepts(parse, schema, JObj([("body", body), ("query", query), ("params", params)]))
    ensures thrown.Some? ==> Validate(parse, schema, body, query, params, thrown, captured) == thrown
  {
  }

  /** A zod failure becomes exactly one 400 carrying one message per issue, in order. */
  lemma ValidateWrapsIssues(parse: UrlParser, schema: Schema, body: Json, query: Json, params: Json, captured: string)
    requires !Accepts(parse, schema, JObj([("body", body), ("query", query), ("params", params)]))
    ensures var next := Validate(parse, schema, body, query, params, None, captured);
            var issues := Run(parse, schema, Some(JObj([("body", body), ("query", query), ("params", params)]))).issues;
            && next.Some? && next.value.Api?
            && next.value.error.statusCode == 400 && next.value.error.message == "Validation error"
            && next.value.error.errors == Some(IssueMessages(issues))
            && |next.value.error.errors.value| == |issues|
  {
  }

  /**
   * The Wikipedia scrape route: a `url` that is neither a URL nor a
   * Wikipedia link is reported twice, under `body.url`.
   */
  lemma WikipediaRouteMessages(parse: UrlParser, url: string, query: Json, params: Json, captured: string)
    requires !IsUrl(parse, url) && !StartsWith(url, WikipediaPrefix)
    ensures var next := Validate(parse, ScrapeValidationSchema, JObj([("url", JStr(url))]), query, params, None, captured);
            && next.Some? && next.value.Api?
            && next.value.error.errors == Some([
                 JObj([("message", JStr(PathText([Key("body"), Key("url")]) + " is " + InvalidUrlMessage))]),
                 JObj([("message", JStr(PathText([Key("body"), Key("url")]) + " is " + NotWikipediaMessage))])])
  {
    var body := JObj([("url", JStr(url))]);
    ValidationChecksOnlyBody(parse, body, query, params);
    ScrapeBodyMessages(parse, url);
    var inner := [Issue([Key("url")], InvalidUrlMessage), Issue([Key("url")], NotWikipediaMessage)];
    var issues := Nest(Key("body"), inner);
    assert [Key("body")] + [Key("url")] == [Key("body"), Key("url")];
    assert Run(parse, ScrapeBodySchema, Some(body)).issues == [Issue([Key("url")], InvalidUrlMessage)] + [Issue([Key("url")], NotWikipediaMessage)];
    assert [Issue([Key("url")], InvalidUrlMessage)] + [Issue([Key("url")], NotWikipediaMessage)] == inner;
    assert issues == [Issue([Key("body"), Key("url")], InvalidUrlMessage), Issue([Key("body"), Key("url")], NotWikipediaMessage)];
    var msgs := IssueMessages(issues);
    assert msgs == [msgs[0], msgs[1]];
  }
}
