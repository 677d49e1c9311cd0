/**
 * What the API Gateway handlers share: the event they receive, the
 * response they build, the SQS queue they send to, the uuids they draw,
 * and the lookup of a site's job schema by the request's `site_type`.
 */
module Lambda {
  import opened Wrappers
  import opened Text
  import opened Json
  import opened Schemas

  /** The parts of an API Gateway proxy event the handlers read. */
  datatype Event = Event(httpMethod: string, body: Option<string>)

  datatype Response = Response(statusCode: int, headers: seq<(string, string)>, body: Json)

  const ContentType := ("Content-Type", "application/json")
  const AllowOrigin := ("Access-Control-Allow-Origin", "*")
  const AllowCredentials := ("Access-Control-Allow-Credentials", "true")

  /**
   * `respond`: the JSON body with the handler's fixed headers; the
   * handlers that allow credentials add a third header. The body is kept
   * as the value `JSON.stringify` encodes.
   */
  function Respond(statusCode: int, body: Json, withCredentials: bool): (r: Response)
    ensures r.statusCode == statusCode && r.body == body
    ensures |r.headers| == (if withCredentials then 3 else 2)
    ensures r.headers[..2] == [ContentType, AllowOrigin]
  {
    Response(statusCode, [ContentType, AllowOrigin] + (if withCredentials then [AllowCredentials] else []), body)
  }

  /** `{ message }`, the body of most replies. */
  function MessageBody(message: string): Json {
    JObj([("message", JStr(message))])
  }

  /** The body of a reply to a request that threw: `{ message, error }`. */
  function InternalErrorBody(error: string): Json {
    JObj([("message", JStr("Internal server error")), ("error", JStr(error))])
  }

  /** A zod issue as it is sent back in `errors`: its path and its message. */
  function IssueJson(issue: Issue): Json {
    JObj([("path", JArr(PathJson(issue.path))), ("message", JStr(issue.message))])
  }

  function PathJson(path: seq<PathSeg>): (r: seq<Json>)
    ensures |r| == |path|
  {
    seq(|path|, i requires 0 <= i < |path| => match path[i] case Key(k) => JStr(k) case Index(n) => JNum(n))
  }

  function IssuesJson(issues: seq<Issue>): (r: Json)
    ensures r.JArr? && |r.items| == |issues|
  {
    JArr(seq(|issues|, i requires 0 <= i < |issues| => IssueJson(issues[i])))
  }

  /** `{ message: 'Invalid input', errors }`. */
  function InvalidInputBody(issues: seq<Issue>): Json {
    JObj([("message", JStr("Invalid input")), ("errors", IssuesJson(issues))])
  }

  /**
   * The `k`-th id `uuidv4()` returns during one invocation. Whether the
   * ids differ from one another is a property of the generator, stated
   * where it is needed.
   */
  type UuidSource = nat -> string

  /** Whether the `k`-th `sqs.send` of one invocation fails, and with which message. */
  type SendFailures = nat -> Option<string>

  /**
   * The SQS queue: the bodies of the messages sent to it, in sending
   * order. A send that fails delivers nothing.
   */
  class Queue {
    var messages: seq<Json>

    constructor ()
      ensures messages == []
    {
      messages := [];
    }

    method Send(body: Json, failure: Option<string>) returns (error: Option<string>)
      modifies this
      ensures error == failure
      ensures messages == old(messages) + (if failure.None? then [body] else [])
    {
      if failure.None? {
        messages := messages + [body];
      }
      error := failure;
    }
  }

  // ---- the site lookup ----

  datatype Site = Wikipedia | News

  function SiteName(site: Site): string {
    match site
    case Wikipedia => "wikipedia"
    case News => "news"
  }

  function JobSchemaOf(site: Site): Schema {
    match site
    case Wikipedia => WikipediaJobSchema
    case News => NewsJobSchema
  }

  /** The property key `siteSchemas[site_type]` reads: `String(site_type)`, or "undefined" when absent. */
  function SiteKey(siteType: Option<Json>): string {
    if siteType.None? then "undefined" else StringOf(siteType.value)
  }

  /** What `siteSchemas[key]` finds on the plain object literal `{ wikipedia, news }`. */
  datatype Lookup = OwnSchema(site: Site) | Inherited(key: string) | Missing

  /** The properties every plain object inherits from `Object.prototype`. */
  const PrototypeKeys: seq<string> := [
    "constructor", "__proto__", "toString", "toLocaleString", "valueOf", "hasOwnProperty",
    "isPrototypeOf", "propertyIsEnumerable", "__defineGetter__", "__defineSetter__",
    "__lookupGetter__", "__lookupSetter__"
  ]

  /**
   * The lookup as written: an ordinary property read, which also finds the
   * inherited members of `Object.prototype`. Those are truthy, so the
   * `!schema` guard lets them through to `schema.safeParse`, which is not
   * a function on them.
   */
  function LookupAsWritten(key: string): (r: Lookup)
    ensures r.OwnSchema? <==> key == "wikipedia" || key == "news"
    ensures r.Inherited? <==> key in PrototypeKeys
  {
    if key == "wikipedia" then OwnSchema(Wikipedia)
    else if key == "news" then OwnSchema(News)
    else if key in PrototypeKeys then Inherited(key)
    else Missing
  }

  /** The request `{ "site_type": "constructor" }` passes the guard although it names no site. */
  lemma ConstructorPassesGuard()
    ensures LookupAsWritten(SiteKey(Some(JStr("constructor")))) == Inherited("constructor")
    ensures SiteFor(SiteKey(Some(JStr("constructor")))).None?
  {
    assert PrototypeKeys[0] == "constructor";
  }

  /** The lookup as intended: only the object's own keys name a site. */
  function SiteFor(key: string): (r: Option<Site>)
    ensures r.Some? <==> key in SiteTypes
    ensures r.Some? ==> SiteName(r.value) == key
  {
    if key == "wikipedia" then Some(Wikipedia)
    else if key == "news" then Some(News)
    else None
  }

  /** What V8 throws for `schema.safeParse(rest)` when `schema` is an inherited member: none has `safeParse`. */
  const SafeParseMissingMessage := "schema.safeParse is not a function"

  /** The intended lookup in the shape of the property read: an own key or nothing. */
  function OwnLookup(key: string): (r: Lookup)
    ensures !r.Inherited?
    ensures r.OwnSchema? <==> key in SiteTypes
    ensures r.OwnSchema? ==> Some(r.site) == SiteFor(key)
  {
    match SiteFor(key)
    case Some(site) => OwnSchema(site)
    case None => Missing
  }

  /** The two lookups agree on every key except the inherited ones, which the intended one rejects. */
  lemma LookupsAgreeOnOwnKeys(key: string)
    ensures LookupAsWritten(key).OwnSchema? <==> SiteFor(key).Some?
    ensures LookupAsWritten(key).OwnSchema? ==> LookupAsWritten(key).site == SiteFor(key).value
    ensures LookupAsWritten(key).Missing? ==> SiteFor(key).None?
    ensures key !in PrototypeKeys ==> LookupAsWritten(key) == OwnLookup(key)
  {
  }
}
