/**
 * The backend's job Lambda (wiki-scraper-backend/src/api.ts): like the
 * site-typed handler it looks the job schema up by `site_type`, but it
 * queues `{ action, payload }` with a fresh `job_id` in the payload, sends
 * the credentials header, answers preflight requests, and turns every
 * thrown error into a 500 reply.
 */
module BackendApi {
  import opened Wrappers
  import opened Text
  import opened Url
  import opened Json
  import opened Schemas
  import opened Lambda

  datatype Handled = Handled(response: Response, queued: seq<Json>)

  /** What V8 throws for `const { site_type, ...rest } = requestBody` when the body is `null`. */
  const NullDestructureMessage := "Cannot destructure property 'site_type' of 'requestBody' as it is null."

  function Reply(statusCode: int, body: Json): Response {
    Respond(statusCode, body, true)
  }

  function Rest(request: Json): (r: Json)
    ensures r.JObj? && !HasKey(r.fields, "site_type")
  {
    if request.JObj? then JObj(Without(request.fields, "site_type")) else JObj([])
  }

  /** `{ action: site_type, payload: { ...parsed.data, job_id } }`. */
  function QueuedJob(siteType: Json, data: Json, jobId: string): (job: Json)
    ensures job.JObj?
  {
    JObj([("action", siteType), ("payload", JObj(Set(if data.JObj? then data.fields else [], "job_id", JStr(jobId))))])
  }

  function QueuedReply(jobId: string, siteType: Json): Json {
    JObj([("message", JStr("Job queued")), ("job_id", JStr(jobId)), ("site_type", siteType)])
  }

  /**
   * The handler over a lookup of `siteSchemas[site_type]`: `Missing` is the
   * 400, and calling `safeParse` on an inherited member throws into the `catch`.
   */
  function HandleWith(lookup: string -> Lookup, event: Event, parseJson: JsonParser, parse: UrlParser, uuid: UuidSource, fail: Option<string>): Handled {
    if event.httpMethod == "OPTIONS" then Handled(Reply(200, JObj([])), [])
    else if !Truthy(event.body) then Handled(Reply(400, MessageBody("Request body is required")), [])
    else match parseJson(event.body.value)
      case Err(m) => Handled(Reply(500, InternalErrorBody(m)), [])
      case Ok(request) =>
        if request.JNull? then Handled(Reply(500, InternalErrorBody(NullDestructureMessage)), [])
        else
          var siteType := Member(request, "site_type");
          match lookup(SiteKey(siteType))
          case Missing => Handled(Reply(400, MessageBody("Unknown site_type")), [])
          case Inherited(_) => Handled(Reply(500, InternalErrorBody(SafeParseMissingMessage)), [])
          case OwnSchema(site) =>
            match SafeParse(parse, JobSchemaOf(site), Rest(request))
            case Err(issues) => Handled(Reply(400, InvalidInputBody(issues)), [])
            case Ok(data) =>
              var job := QueuedJob(siteType.GetOr(JNull), data, uuid(0));
              if fail.Some? then Handled(Reply(500, InternalErrorBody(fail.value)), [])
              else Handled(Reply(200, QueuedReply(uuid(0), siteType.GetOr(JNull))), [job])
  }

  /** `handler` as written: the lookup also finds `Object.prototype`'s members. */
  function Handle(event: Event, parseJson: JsonParser, parse: UrlParser, uuid: UuidSource, fail: Option<string>): Handled {
    HandleWith(LookupAsWritten, event, parseJson, parse, uuid, fail)
  }

  /** `handler` as intended: only the two own keys name a site. */
  function HandleCorrected(event: Event, parseJson: JsonParser, parse: UrlParser, uuid: UuidSource, fail: Option<string>): Handled {
    HandleWith(OwnLookup, event, parseJson, parse, uuid, fail)
  }

  /** The key the handler looks up, when the request gets that far. */
  function LookedUpKey(event: Event, parseJson: JsonParser): Option<string> {
    if event.httpMethod == "OPTIONS" || !Truthy(event.body) then None
    else match parseJson(event.body.value)
      case Err(_) => None
      case Ok(request) => if request.JNull? then None else Some(SiteKey(Member(request, "site_type")))
  }

  /** `handler`: the send goes to `q`. */
  method Handler(q: Queue, event: Event, parseJson: JsonParser, parse: UrlParser, uuid: UuidSource, fail: Option<string>)
    returns (response: Response)
    modifies q
    ensures response == Handle(event, parseJson, parse, uuid, fail).response
    ensures q.messages == old(q.messages) + Handle(event, parseJson, parse, uuid, fail).queued
  {
    if event.httpMethod == "OPTIONS" {
      return Reply(200, JObj([]));
    }
    if !Truthy(event.body) {
      return Reply(400, MessageBody("Request body is required"));
    }
    var parsedBody := parseJson(event.body.value);
    if parsedBody.Err? {
      return Reply(500, InternalErrorBody(parsedBody.error));
    }
    var request := parsedBody.value;
    if request.JNull? {
      return Reply(500, InternalErrorBody(NullDestructureMessage));
    }
    var siteType := Member(request, "site_type");
    var schema := LookupAsWritten(SiteKey(siteType));
    if schema.Missing? {
      return Reply(400, MessageBody("Unknown site_type"));
    }
    if schema.Inherited? {
      return Reply(500, InternalErrorBody(SafeParseMissingMessage));
    }
    var parsed := SafeParse(parse, JobSchemaOf(schema.site), Rest(request));
    if parsed.Err? {
      return Reply(400, InvalidInputBody(parsed.error));
    }
    var job := QueuedJob(siteType.GetOr(JNull), parsed.value, uuid(0));
    var e := q.Send(job, fail);
    if e.Some? {
      return Reply(500, InternalErrorBody(e.value));
    }
    return Reply(200, QueuedReply(uuid(0), siteType.GetOr(JNull)));
  }

  // ---- properties ----

  /** Preflight requests are answered `200 {}` before the body is looked at. */
  lemma OptionsAnsweredFirst(body: Option<string>, parseJson: JsonParser, parse: UrlParser, uuid: UuidSource, fail: Option<string>)
    ensures Handle(Event("OPTIONS", body), parseJson, parse, uuid, fail) == Handled(Respond(200, JObj([]), true), [])
  {
  }

  /** Every answer carries the three headers, and nothing is queued unless the answer is 200. */
  lemma AnswersAndQueue(event: Event, parseJson: JsonParser, parse: UrlParser, uuid: UuidSource, fail: Option<string>)
    ensures var h := Handle(event, parseJson, parse, uuid, fail);
            && h.response.headers == [ContentType, AllowOrigin, AllowCredentials]
            && |h.queued| <= 1
            && (h.queued != [] <==> h.response.statusCode == 200 && event.httpMethod != "OPTIONS")
  {
  }

  /** Whatever throws (a body that is not JSON, a `null` body, a failed send) is answered 500 with its message. */
  lemma ThrownErrorsAre500(event: Event, parseJson: JsonParser, parse: UrlParser, uuid: UuidSource, fail: Option<string>)
    requires event.httpMethod != "OPTIONS" && Truthy(event.body)
    ensures parseJson(event.body.value).Err? ==>
              Handle(event, parseJson, parse, uuid, fail) == Handled(Reply(500, InternalErrorBody(parseJson(event.body.value).error)), [])
    ensures parseJson(event.body.value) == Ok(JNull) ==>
              Handle(event, parseJson, parse, uuid, fail) == Handled(Reply(500, InternalErrorBody(NullDestructureMessage)), [])
  {
  }

  /** A `site_type` that is neither a site name nor an inherited member (or is absent) is a 400, whatever the rest holds. */
  lemma UnknownSiteRejected(event: Event, parseJson: JsonParser, parse: UrlParser, uuid: UuidSource, fail: Option<string>, key: string)
    requires LookedUpKey(event, parseJson) == Some(key)
    requires key !in SiteTypes && key !in PrototypeKeys
    ensures Handle(event, parseJson, parse, uuid, fail) == Handled(Reply(400, MessageBody("Unknown site_type")), [])
  {
  }

  /** A `site_type` naming an `Object.prototype` member passes the guard and is a 500 from `schema.safeParse`. */
  lemma PrototypeKeyIs500(event: Event, parseJson: JsonParser, parse: UrlParser, uuid: UuidSource, fail: Option<string>, key: string)
    requires LookedUpKey(event, parseJson) == Some(key)
    requires key in PrototypeKeys
    ensures Handle(event, parseJson, parse, uuid, fail) == Handled(Reply(500, InternalErrorBody(SafeParseMissingMessage)), [])
  {
  }

  /** With the intended lookup, every `site_type` that is not a site name is a 400. */
  lemma CorrectedUnknownSiteRejected(event: Event, parseJson: JsonParser, parse: UrlParser, uuid: UuidSource, fail: Option<string>, key: string)
    requires LookedUpKey(event, parseJson) == Some(key)
    requires key !in SiteTypes
    ensures HandleCorrected(event, parseJson, parse, uuid, fail) == Handled(Reply(400, MessageBody("Unknown site_type")), [])
  {
  }

  /** The handler as written and as intended differ exactly on the requests that look up an inherited member. */
  lemma HandlesDifferOnPrototypeKeys(event: Event, parseJson: JsonParser, parse: UrlParser, uuid: UuidSource, fail: Option<string>)
    ensures Handle(event, parseJson, parse, uuid, fail) != HandleCorrected(event, parseJson, parse, uuid, fail)
            <==> LookedUpKey(event, parseJson).Some? && LookedUpKey(event, parseJson).value in PrototypeKeys
  {
    var k := LookedUpKey(event, parseJson);
    if k.Some? {
      LookupsAgreeOnOwnKeys(k.value);
    }
  }

  lemma SuccessfulHandle(event: Event, parseJson: JsonParser, parse: UrlParser, uuid: UuidSource,
                         request: Json, siteType: Json, site: Site, data: Json)
    requires event.httpMethod != "OPTIONS" && Truthy(event.body) && parseJson(event.body.value) == Ok(request)
    requires request.JObj? && Get(request.fields, "site_type") == Some(siteType)
    requires SiteFor(StringOf(siteType)) == Some(site)
    requires SafeParse(parse, JobSchemaOf(site), Rest(request)) == Ok(data)
    ensures Handle(event, parseJson, parse, uuid, None) ==
            Handled(Reply(200, QueuedReply(uuid(0), siteType)), [QueuedJob(siteType, data, uuid(0))])
  {
  }

  /** The queued job's `action` is the `site_type`, its payload is the data with `job_id` the new id. */
  lemma QueuedJobReads(siteType: Json, data: Json, jobId: string, key: string)
    requires data.JObj?
    ensures var job := QueuedJob(siteType, data, jobId);
            && Get(job.fields, "action") == Some(siteType)
            && Get(job.fields, "payload") == Some(JObj(Set(data.fields, "job_id", JStr(jobId))))
            && Get(Set(data.fields, "job_id", JStr(jobId)), "job_id") == Some(JStr(jobId))
            && (key != "job_id" ==> Get(Set(data.fields, "job_id", JStr(jobId)), key) == Get(data.fields, key))
  {
    SetThenGet(data.fields, "job_id", JStr(jobId), key);
    var job := QueuedJob(siteType, data, jobId);
    assert job.fields[..1] == [("action", siteType)];
  }

  /**
   * A valid job is queued once with the site as its `action` and a
   * payload that is the validated job with the new `job_id` (which wins
   * over one the client sent); the reply names the same id.
   */
  lemma QueuedJobGetsNewId(event: Event, parseJson: JsonParser, parse: UrlParser, uuid: UuidSource,
                           request: Json, siteType: Json, site: Site, data: Json, key: string)
    requires event.httpMethod != "OPTIONS" && Truthy(event.body) && parseJson(event.body.value) == Ok(request)
    requires request.JObj? && Get(request.fields, "site_type") == Some(siteType)
    requires SiteFor(StringOf(siteType)) == Some(site)
    requires SafeParse(parse, JobSchemaOf(site), Rest(request)) == Ok(data)
    ensures var h := Handle(event, parseJson, parse, uuid, None);
            && h.response == Reply(200, QueuedReply(uuid(0), siteType))
            && h.queued == [QueuedJob(siteType, data, uuid(0))]
            && data.JObj?
            && Get(QueuedJob(siteType, data, uuid(0)).fields, "action") == Some(siteType)
            && Get(QueuedJob(siteType, data, uuid(0)).fields, "payload") == Some(JObj(Set(data.fields, "job_id", JStr(uuid(0)))))
            && Get(Set(data.fields, "job_id", JStr(uuid(0))), "job_id") == Some(JStr(uuid(0)))
            && (key != "job_id" ==> Get(Set(data.fields, "job_id", JStr(uuid(0))), key) == Get(data.fields, key))
  {
    JobSchemasIdentical(parse, Rest(request));
    QueuedJobReads(siteType, data, uuid(0), key);
    SuccessfulHandle(event, parseJson, parse, uuid, request, siteType, site, data);
  }
}
