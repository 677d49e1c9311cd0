/**
 * The `/api/scrape` batch endpoint of src/app.ts (lines 75-124). It is the
 * dispatcher's job loop behind Express: the body arrives already parsed
 * (or absent), the reply is an Express status and JSON body, and there is
 * no separate check for a missing body. The browser is closed directly,
 * so the factory's cache keeps pointing at it afterwards.
 */
module BatchEndpoint {
  import opened Wrappers
  import opened Text
  import opened Url
  import opened Json
  import opened Schemas
  import opened Lambda
  import opened Puppeteer
  import opened BrowserFactory
  import opened Dispatch
  import Errors

  /** The endpoint's answer for `req.body` (`None` when it is undefined). */
  function BatchAnswer(body: Option<Json>, parse: UrlParser, createError: Option<string>,
                       scrape: ScrapeOutcomes, closeError: Option<string>): Errors.Reply {
    var parsed := Run(parse, BackendBatchSchema, body);
    if parsed.issues != [] then Errors.Reply(400, InvalidInputBody(parsed.issues))
    else if createError.Some? then Errors.Reply(500, InternalErrorBody(createError.value))
    else if closeError.Some? then Errors.Reply(500, InternalErrorBody(closeError.value))
    else Errors.Reply(200, ResultsBody(Results(JobsOf(parsed.data.GetOr(JNull)), parse, scrape)))
  }

  /** The error the caching factory's `createBrowser` throws, for each state of its cache. */
  function CreateFailure(cached: bool, alive: bool, outcome: CreateOutcome): Option<string> {
    if cached && alive then None else CreateError(outcome)
  }

  /** The route handler: the reply sent and the browser obtained, if any. */
  method Scrape(m: ModuleState, proxyConfig: ProxyConfig, alive: bool, now: int, env: HostEnv, userAgent: string,
                anonymize: Anonymizer, outcome: CreateOutcome, body: Option<Json>, parse: UrlParser,
                scrape: ScrapeOutcomes, closeError: Option<string>)
    returns (reply: Errors.Reply, browser: Browser?)
    requires m.Valid()
    modifies m, m.factoryInstance, m.browserInstance
    ensures m.Valid()
    ensures reply == BatchAnswer(body, parse, CreateFailure(old(m.browserInstance) != null, alive, outcome), scrape, closeError)
    ensures Run(parse, BackendBatchSchema, body).issues != [] ==>
      browser == null && m.factoryInstance == old(m.factoryInstance) && m.browserInstance == old(m.browserInstance)
    ensures browser != null ==> m.browserInstance == browser && m.keepAliveInterval.Some?
    ensures browser != null && closeError.None? ==> browser.closed
  {
    browser := null;
    var parsed := Run(parse, BackendBatchSchema, body);
    if parsed.issues != [] {
      return Errors.Reply(400, InvalidInputBody(parsed.issues)), null;
    }
    var factory := NewFactory(m, BrowserConfig(None, None, None), proxyConfig);
    var created := factory.CreateBrowser(m, alive, now, env, userAgent, anonymize, parse, outcome);
    if created.Err? {
      return Errors.Reply(500, InternalErrorBody(created.error)), null;
    }
    browser := created.value;
    if closeError.Some? {
      return Errors.Reply(500, InternalErrorBody(closeError.value)), browser;
    }
    browser.Close();
    var results := Results(JobsOf(parsed.data.GetOr(JNull)), parse, scrape);
    reply := Errors.Reply(200, ResultsBody(results));
  }

  // ---- properties ----

  /** A body that fails the batch schema is a 400 with its issues; an absent one is always such a body. */
  lemma InvalidBodyRejected(body: Option<Json>, parse: UrlParser, createError: Option<string>,
                            scrape: ScrapeOutcomes, closeError: Option<string>)
    ensures Run(parse, BackendBatchSchema, body).issues != [] <==>
            BatchAnswer(body, parse, createError, scrape, closeError) ==
              Errors.Reply(400, InvalidInputBody(Run(parse, BackendBatchSchema, body).issues))
    ensures body.None? ==> BatchAnswer(body, parse, createError, scrape, closeError).status == 400
  {
  }

  /** A failure to create or to close the browser is a 500 `Internal server error` with its message. */
  lemma BrowserFailuresAre500(v: Json, parse: UrlParser, createError: Option<string>,
                              scrape: ScrapeOutcomes, closeError: Option<string>)
    requires Accepts(parse, BackendBatchSchema, v)
    ensures createError.Some? ==>
      BatchAnswer(Some(v), parse, createError, scrape, closeError) == Errors.Reply(500, InternalErrorBody(createError.value))
    ensures createError.None? && closeError.Some? ==>
      BatchAnswer(Some(v), parse, createError, scrape, closeError) == Errors.Reply(500, InternalErrorBody(closeError.value))
  {
  }

  /**
   * The endpoint and the dispatcher classify a batch the same way: for the
   * same request they send the same `results`.
   */
  lemma SameResultsAsDispatcher(event: Event, parseJson: JsonParser, v: Json, parse: UrlParser, scrape: ScrapeOutcomes)
    requires Truthy(event.body) && parseJson(event.body.value) == Ok(v)
    requires Accepts(parse, BackendBatchSchema, v)
    ensures BatchAnswer(Some(v), parse, None, scrape, None).status == Answer(event, parseJson, parse, None, scrape, None).statusCode == 200
    ensures BatchAnswer(Some(v), parse, None, scrape, None).body == Answer(event, parseJson, parse, None, scrape, None).body
  {
  }
}
