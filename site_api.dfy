/**
 * The site-typed job Lambda of src/api/handler.ts: the request names its
 * site in `site_type`, the remaining properties are validated against that
 * site's job schema, and the job is sent to the queue with its site. The
 * handler has no `try`, so a body that is not JSON, a `null` body and a
 * failed send reject the invocation instead of answering it.
 */
module SiteApi {
  import opened Wrappers
  import opened Text
  import opened Url
  import opened Json
  import opened Schemas
  import opened Lambda

  /** An invocation either answers or rejects with the thrown error's message. */
  datatype Outcome = Responded(response: Response) | Rejected(reason: string)

  datatype Handled = Handled(outcome: Outcome, queued: seq<Json>)

  /** What V8 throws for `const { site_type, ...rest } = JSON.parse(body)` when the body is `null`. */
  const NullDestructureMessage := "Cannot destructure property 'site_type' of 'JSON.parse(...)' as it is null."

  function Reply(statusCode: int, body: Json): Outcome {
    Responded(Respond(statusCode, body, false))
  }

  /** `rest`: every property but `site_type`; a value that is not an object has none this handler reads. */
  function Rest(request: Json): (r: Json)
    ensures r.JObj? && !HasKey(r.fields, "site_type")
  {
    if request.JObj? then JObj(Without(request.fields, "site_type")) else JObj([])
  }

  /** The queued body `{ site_type, ...parsed.data }`. */
  function QueuedMessage(siteType: Json, data: Json): (m: Json)
    ensures m.JObj?
  {
    JObj([("site_type", siteType)] + (if data.JObj? then data.fields else []))
  }

  function QueuedReply(siteType: Json): Json {
    JObj([("message", JStr("Job queued")), ("site_type", siteType)])
  }

  /**
   * The handler over a lookup of `siteSchemas[site_type]`: `Missing` is the
   * 400, and an inherited member has no `safeParse`, so calling it throws.
   */
  function HandleWith(lookup: string -> Lookup, event: Event, parseJson: JsonParser, parse: UrlParser, fail: Option<string>): Handled {
    if !Truthy(event.body) then Handled(Reply(400, MessageBody("Request body is required")), [])
    else match parseJson(event.body.value)
      case Err(m) => Handled(Rejected(m), [])
      case Ok(request) =>
        if request.JNull? then Handled(Rejected(NullDestructureMessage), [])
        else
          var siteType := Member(request, "site_type");
          match lookup(SiteKey(siteType))
          case Missing => Handled(Reply(400, MessageBody("Unknown site_type")), [])
          case Inherited(_) => Handled(Rejected(SafeParseMissingMessage), [])
          case OwnSchema(site) =>
            match SafeParse(parse, JobSchemaOf(site), Rest(request))
            case Err(issues) => Handled(Reply(400, InvalidInputBody(issues)), [])
            case Ok(data) =>
              if fail.Some? then Handled(Rejected(fail.value), [])
              else Handled(Reply(200, QueuedReply(siteType.GetOr(JNull))), [QueuedMessage(siteType.GetOr(JNull), data)])
  }

  /** `handler` as written: the lookup also finds `Object.prototype`'s members. */
  function Handle(event: Event, parseJson: JsonParser, parse: UrlParser, fail: Option<string>): Handled {
    HandleWith(LookupAsWritten, event, parseJson, parse, fail)
  }

  /** `handler` as intended: only the two own keys name a site. */
  function HandleCorrected(event: Event, parseJson: JsonParser, parse: UrlParser, fail: Option<string>): Handled {
    HandleWith(OwnLookup, event, parseJson, parse, fail)
  }

  /** The key the handler looks up, when the request gets that far. */
  function LookedUpKey(event: Event, parseJson: JsonParser): Option<string> {
    if !Truthy(event.body) then None
    else match parseJson(event.body.value)
      case Err(_) => None
      case Ok(request) => if request.JNull? then None else Some(SiteKey(Member(request, "site_type")))
  }

  /** `handler`: the send goes to `q`; `Rejected` is the rejection of the returned promise. */
  method Handler(q: Queue, event: Event, parseJson: JsonParser, parse: UrlParser, fail: Option<string>)
    returns (outcome: Outcome)
    modifies q
    ensures outcome == Handle(event, parseJson, parse, fail).outcome
    ensures q.messages == old(q.messages) + Handle(event, parseJson, parse, fail).queued
  {
    if !Truthy(event.body) {
      return Reply(400, MessageBody("Request body is required"));
    }
    var parsedBody := parseJson(event.body.value);
    if parsedBody.Err? {
      return Rejected(parsedBody.error);
    }
    var request := parsedBody.value;
    if request.JNull? {
      return Rejected(NullDestructureMessage);
    }
    var siteType := Member(request, "site_type");
    var schema := LookupAsWritten(SiteKey(siteType));
    if schema.Missing? {
      return Reply(400, MessageBody("Unknown site_type"));
    }
    if schema.Inherited? {
      return Rejected(SafeParseMissingMessage);
    }
    var parsed := SafeParse(parse, JobSchemaOf(schema.site), Rest(request));
    if parsed.Err? {
      return Reply(400, InvalidInputBody(parsed.error));
    }
    var e := q.Send(QueuedMessage(siteType.GetOr(JNull), parsed.value), fail);
    if e.Some? {
      return Rejected(e.value);
    }
    return Reply(200, QueuedReply(siteType.GetOr(JNull)));
  }

  // ---- properties ----

  /** Every answer carries the two fixed headers and no credentials header. */
  lemma AnswersHaveTwoHeaders(event: Event, parseJson: JsonParser, parse: UrlParser, fail: Option<string>)
    ensures var o := Handle(event, parseJson, parse, fail).outcome;
            o.Responded? ==> o.response.headers == [ContentType, AllowOrigin]
  {
  }

  /** Nothing is queued unless the answer is 200. */
  lemma QueuedOnlyOnSuccess(event: Event, parseJson: JsonParser, parse: UrlParser, fail: Option<string>)
    ensures var h := Handle(event, parseJson, parse, fail);
            h.queued != [] <==> h.outcome.Responded? && h.outcome.response.statusCode == 200
    ensures |Handle(event, parseJson, parse, fail).queued| <= 1
  {
  }

  /** A `site_type` that is neither a site name nor an inherited member (or is absent) is a 400, whatever the rest holds. */
  lemma UnknownSiteRejected(event: Event, parseJson: JsonParser, parse: UrlParser, fail: Option<string>, key: string)
    requires LookedUpKey(event, parseJson) == Some(key)
    requires key !in SiteTypes && key !in PrototypeKeys
    ensures Handle(event, parseJson, parse, fail) == Handled(Reply(400, MessageBody("Unknown site_type")), [])
  {
  }

  /** A `site_type` naming an `Object.prototype` member passes the guard and throws at `schema.safeParse`. */
  lemma PrototypeKeyThrows(event: Event, parseJson: JsonParser, parse: UrlParser, fail: Option<string>, key: string)
    requires LookedUpKey(event, parseJson) == Some(key)
    requires key in PrototypeKeys
    ensures Handle(event, parseJson, parse, fail) == Handled(Rejected(SafeParseMissingMessage), [])
  {
  }

  /** With the intended lookup, every `site_type` that is not a site name is a 400. */
  lemma CorrectedUnknownSiteRejected(event: Event, parseJson: JsonParser, parse: UrlParser, fail: Option<string>, key: string)
    requires LookedUpKey(event, parseJson) == Some(key)
    requires key !in SiteTypes
    ensures HandleCorrected(event, parseJson, parse, fail) == Handled(Reply(400, MessageBody("Unknown site_type")), [])
  {
  }

  /** The handler as written and as intended differ exactly on the requests that look up an inherited member. */
  lemma HandlesDifferOnPrototypeKeys(event: Event, parseJson: JsonParser, parse: UrlParser, fail: Option<string>)
    ensures Handle(event, parseJson, parse, fail) != HandleCorrected(event, parseJson, parse, fail)
            <==> LookedUpKey(event, parseJson).Some? && LookedUpKey(event, parseJson).value in PrototypeKeys
  {
    var k := LookedUpKey(event, parseJson);
    if k.Some? {
      LookupsAgreeOnOwnKeys(k.value);
    }
  }

  /** A `null` body throws before the lookup; a body that is not JSON throws the parser's error. */
  lemma ThrowsOnNullOrUnparsable(event: Event, parseJson: JsonParser, parse: UrlParser, fail: Option<string>)
    requires Truthy(event.body)
    ensures parseJson(event.body.value) == Ok(JNull) ==>
              Handle(event, parseJson, parse, fail).outcome == Rejected(NullDestructureMessage)
    ensures parseJson(event.body.value).Err? ==>
              Handle(event, parseJson, parse, fail).outcome == Rejected(parseJson(event.body.value).error)
  {
  }

  /** The queued message reads back its `site_type`, and every other key as the job data has it. */
  lemma QueuedMessageReads(siteType: Json, data: Json, key: string)
    requires data.JObj? && !HasKey(data.fields, "site_type")
    ensures Get(QueuedMessage(siteType, data).fields, "site_type") == Some(siteType)
    ensures key != "site_type" ==> Get(QueuedMessage(siteType, data).fields, key) == Get(data.fields, key)
  {
    GetAppend([("site_type", siteType)], data.fields, "site_type");
    GetAppend([("site_type", siteType)], data.fields, key);
  }

  /** A known site, a valid job and a send that succeeds give a 200 and one queued message. */
  lemma SuccessfulHandle(event: Event, parseJson: JsonParser, parse: UrlParser,
                         request: Json, siteType: Json, site: Site, data: Json)
    requires Truthy(event.body) && parseJson(event.body.value) == Ok(request)
    requires request.JObj? && Get(request.fields, "site_type") == Some(siteType)
    requires SiteFor(StringOf(siteType)) == Some(site)
    requires SafeParse(parse, JobSchemaOf(site), Rest(request)) == Ok(data)
    ensures Handle(event, parseJson, parse, None) == Handled(Reply(200, QueuedReply(siteType)), [QueuedMessage(siteType, data)])
  {
  }

  /**
   * A request whose site is known and whose other properties satisfy the
   * site's job schema is queued once: the message reads back the
   * request's `site_type` and otherwise exactly the validated job.
   */
  lemma QueuedJobKeepsSiteAndData(event: Event, parseJson: JsonParser, parse: UrlParser,
                                   request: Json, siteType: Json, site: Site, data: Json, key: string)
    requires Truthy(event.body) && parseJson(event.body.value) == Ok(request)
    requires request.JObj? && Get(request.fields, "site_type") == Some(siteType)
    requires SiteFor(StringOf(siteType)) == Some(site)
    requires SafeParse(parse, JobSchemaOf(site), Rest(request)) == Ok(data)
    ensures var h := Handle(event, parseJson, parse, None);
            && h.outcome == Reply(200, QueuedReply(siteType))
            && |h.queued| == 1
            && Get(h.queued[0].fields, "site_type") == Some(siteType)
            && (key != "site_type" ==> Get(h.queued[0].fields, key) == Get(data.fields, key))
  {
    var rest := Rest(request);
    JobSchemasIdentical(parse, rest);
    JobDataOmits(parse, rest, "site_type");
    QueuedMessageReads(siteType, data, key);
    SuccessfulHandle(event, parseJson, parse, request, siteType, site, data);
  }
}
