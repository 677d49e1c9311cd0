/**
 * The batch scrape dispatcher (wiki-scraper-backend/src/lambda/scrape-dispatcher.ts):
 * a body `{ jobs: [{ action, payload }] }` is validated, one browser is
 * obtained, every job is classified into one entry of the results (unknown
 * action, invalid payload, scraper error, or the scraped data), and the
 * browser is closed before the reply. The jobs run concurrently in the
 * source; here they run in order, and what each scrape does is an input.
 */
module Dispatch {
  import opened Wrappers
  import opened Text
  import opened Url
  import opened Json
  import opened Schemas
  import opened Lambda
  import opened Puppeteer
  import opened BrowserFactory
  import BackendBrowserFactory
  import Scrapers

  /** What an entry's `data` holds: a payload's zod issues, or a scrape result. */
  datatype EntryData = Issues(issues: seq<Issue>) | Scraped(result: Scrapers.ScrapeResult)

  /** One element of `results`: `{ action, success, data?, error? }`. */
  datatype Entry = Entry(action: Json, success: bool, data: Option<EntryData>, error: Option<string>)

  /** What `scraper.scrape(browser, payload)` gives for the job at each index: its result or its error's message. */
  type ScrapeOutcomes = nat -> Result<Scrapers.ScrapeResult, string>

  /** The entry for one job; `scrape` is what that job's scraper call gives. */
  function EntryFor(job: Json, parse: UrlParser, scrape: Result<Scrapers.ScrapeResult, string>): (e: Entry)
    ensures e.action == Member(job, "action").GetOr(JNull)
    ensures e.success <==> e.error.None?
    ensures e.success ==> e.data.Some? && e.data.value.Scraped?
  {
    var action := Member(job, "action").GetOr(JNull);
    match SiteFor(SiteKey(Member(job, "action")))
    case None => Entry(action, false, None, Some("Unknown action"))
    case Some(site) =>
      var jobParse := Run(parse, JobSchemaOf(site), Member(job, "payload"));
      if jobParse.issues != [] then
        Entry(action, false, Some(Issues(jobParse.issues)), Some("Invalid payload"))
      else match scrape
        case Ok(result) => Entry(action, true, Some(Scraped(result)), None)
        case Err(message) => Entry(action, false, None, Some(message))
  }

  /** `results`: one entry per job, the `i`-th from the `i`-th job and its own scrape. */
  function Results(jobs: seq<Json>, parse: UrlParser, scrape: ScrapeOutcomes): (r: seq<Entry>)
    ensures |r| == |jobs|
  {
    seq(|jobs|, i requires 0 <= i < |jobs| => EntryFor(jobs[i], parse, scrape(i)))
  }

  /** The jobs of a parsed batch. */
  function JobsOf(batch: Json): seq<Json> {
    var jobs := Member(batch, "jobs");
    if jobs.Some? && jobs.value.JArr? then jobs.value.items else []
  }

  // ---- the reply body ----

  function ScrapeResultJson(r: Scrapers.ScrapeResult): Json {
    JObj([("screenshot", JStr(r.screenshot)), ("markdown", JStr(r.markdown)),
          ("links", JArr(seq(|r.links|, i requires 0 <= i < |r.links| => JStr(r.links[i]))))])
  }

  /** An entry as it is encoded: `action`, `success`, then `error` and `data` when present. */
  function EntryJson(e: Entry): Json {
    JObj([("action", e.action), ("success", JBool(e.success))]
         + (if e.error.Some? then [("error", JStr(e.error.value))] else [])
         + (match e.data
            case None => []
            case Some(Issues(issues)) => [("data", IssuesJson(issues))]
            case Some(Scraped(r)) => [("data", ScrapeResultJson(r))]))
  }

  function ResultsBody(entries: seq<Entry>): Json {
    JObj([("results", JArr(seq(|entries|, i requires 0 <= i < |entries| => EntryJson(entries[i]))))])
  }

  // ---- the handler ----

  function Reply(statusCode: int, body: Json): Response {
    Respond(statusCode, body, false)
  }

  /** Whether the handler gets as far as creating a browser. */
  predicate NeedsBrowser(event: Event, parseJson: JsonParser, parse: UrlParser) {
    && Truthy(event.body)
    && parseJson(event.body.value).Ok?
    && Accepts(parse, BackendBatchSchema, parseJson(event.body.value).value)
  }

  /**
   * The handler's answer, given the error `createBrowser` throws (if any)
   * and the error `browser.close()` throws (if any).
   */
  function Answer(event: Event, parseJson: JsonParser, parse: UrlParser, createError: Option<string>,
                  scrape: ScrapeOutcomes, closeError: Option<string>): Response {
    if !Truthy(event.body) then Reply(400, MessageBody("Request body is required"))
    else match parseJson(event.body.value)
      case Err(m) => Reply(500, InternalErrorBody(m))
      case Ok(request) =>
        match SafeParse(parse, BackendBatchSchema, request)
        case Err(issues) => Reply(400, InvalidInputBody(issues))
        case Ok(data) =>
          if createError.Some? then Reply(500, InternalErrorBody(createError.value))
          else if closeError.Some? then Reply(500, InternalErrorBody(closeError.value))
          else Reply(200, ResultsBody(Results(JobsOf(data), parse, scrape)))
  }

  /**
   * `handler`: validates, creates a browser with `new BrowserFactory()` of
   * the backend, runs the jobs and closes the browser. `launchError` is what
   * launching throws and `closeError` what `browser.close()` throws.
   * Returns the response and the browser launched, if any.
   */
  method Handler(env: HostEnv, launchError: Option<string>, event: Event, parseJson: JsonParser, parse: UrlParser,
                 scrape: ScrapeOutcomes, closeError: Option<string>)
    returns (response: Response, browser: Browser?)
    ensures response == Answer(event, parseJson, parse, launchError, scrape, closeError)
    ensures !NeedsBrowser(event, parseJson, parse) ==> browser == null
    ensures NeedsBrowser(event, parseJson, parse) ==> (browser == null <==> launchError.Some?)
    ensures browser != null ==> fresh(browser)
    ensures browser != null ==> browser.launchOptions == BackendBrowserFactory.LaunchOptionsFor(BackendBrowserFactory.EmptyConfig, env)
    ensures browser != null ==> (browser.closed <==> closeError.None?)
  {
    browser := null;
    if !Truthy(event.body) {
      return Reply(400, MessageBody("Request body is required")), null;
    }
    var request := parseJson(event.body.value);
    if request.Err? {
      return Reply(500, InternalErrorBody(request.error)), null;
    }
    var parsed := SafeParse(parse, BackendBatchSchema, request.value);
    if parsed.Err? {
      return Reply(400, InvalidInputBody(parsed.error)), null;
    }
    var factory := new BackendBrowserFactory.Factory(BackendBrowserFactory.EmptyConfig);
    var created := factory.CreateBrowser(env, launchError);
    if created.Err? {
      return Reply(500, InternalErrorBody(created.error)), null;
    }
    browser := created.value;
    var results := Results(JobsOf(parsed.value), parse, scrape);
    if closeError.Some? {
      return Reply(500, InternalErrorBody(closeError.value)), browser;
    }
    browser.Close();
    response := Reply(200, ResultsBody(results));
  }

  // ---- properties ----

  /** Entry `i` is the `i`-th job's classification, whatever the other jobs' scrapes did. */
  lemma ResultsPerJob(jobs: seq<Json>, parse: UrlParser, scrape: ScrapeOutcomes, other: ScrapeOutcomes, i: nat)
    requires i < |jobs| && scrape(i) == other(i)
    ensures Results(jobs, parse, scrape)[i] == Results(jobs, parse, other)[i]
    ensures Results(jobs, parse, scrape)[i].action == Member(jobs[i], "action").GetOr(JNull)
  {
  }

  /** A job whose `action` names no site is reported as an unknown action, and no scrape happens for it. */
  lemma UnknownActionEntry(job: Json, parse: UrlParser, scrape: Result<Scrapers.ScrapeResult, string>)
    requires SiteKey(Member(job, "action")) !in SiteTypes
    ensures EntryFor(job, parse, scrape) == Entry(Member(job, "action").GetOr(JNull), false, None, Some("Unknown action"))
  {
  }

  /** A payload that fails the site's job schema is reported with its issues, whatever the scrape would give. */
  lemma InvalidPayloadEntry(job: Json, parse: UrlParser, scrape: Result<Scrapers.ScrapeResult, string>, site: Site)
    requires SiteFor(SiteKey(Member(job, "action"))) == Some(site)
    requires Run(parse, JobSchemaOf(site), Member(job, "payload")).issues != []
    ensures EntryFor(job, parse, scrape) ==
      Entry(Member(job, "action").GetOr(JNull), false,
            Some(Issues(Run(parse, JobSchemaOf(site), Member(job, "payload")).issues)), Some("Invalid payload"))
  {
  }

  /** A valid job's entry is its scrape's result, or its scrape's error message. */
  lemma ValidJobEntry(job: Json, parse: UrlParser, scrape: Result<Scrapers.ScrapeResult, string>, site: Site)
    requires SiteFor(SiteKey(Member(job, "action"))) == Some(site)
    requires Run(parse, JobSchemaOf(site), Member(job, "payload")).issues == []
    ensures scrape.Ok? ==> EntryFor(job, parse, scrape) == Entry(Member(job, "action").GetOr(JNull), true, Some(Scraped(scrape.value)), None)
    ensures scrape.Err? ==> EntryFor(job, parse, scrape) == Entry(Member(job, "action").GetOr(JNull), false, None, Some(scrape.error))
  {
  }

  lemma KnownActionHasSite(action: Option<Json>)
    requires KnownAction(action)
    ensures SiteFor(SiteKey(action)).Some?
  {
  }

  /**
   * In a batch that passed validation every action names a site, so the
   * unknown-action branch is never taken for it.
   */
  lemma ValidatedBatchHasNoUnknownAction(parse: UrlParser, request: Json, i: nat)
    requires Accepts(parse, BackendBatchSchema, request)
    requires i < |JobsOf(SafeParse(parse, BackendBatchSchema, request).value)|
    ensures SiteFor(SiteKey(Member(JobsOf(SafeParse(parse, BackendBatchSchema, request).value)[i], "action"))).Some?
  {
    BackendBatchJobs(parse, request, i);
    var raw := Get(request.fields, "jobs").value.items;
    BackendActionKeepsAction(parse, raw[i]);
    var job := SafeParse(parse, BackendActionSchema, raw[i]).value;
    assert JobsOf(SafeParse(parse, BackendBatchSchema, request).value)[i] == job;
    KnownActionHasSite(Member(job, "action"));
  }

  /** The reply's `results` has one entry per job, in job order. */
  lemma ReplyListsEveryJob(event: Event, parseJson: JsonParser, parse: UrlParser, scrape: ScrapeOutcomes)
    requires NeedsBrowser(event, parseJson, parse)
    ensures var request := parseJson(event.body.value).value;
            request.JObj? && Get(request.fields, "jobs").Some? && Get(request.fields, "jobs").value.JArr?
    ensures var request := parseJson(event.body.value).value;
            var jobs := JobsOf(SafeParse(parse, BackendBatchSchema, request).value);
            var r := Answer(event, parseJson, parse, None, scrape, None);
            && r.statusCode == 200
            && r.body == ResultsBody(Results(jobs, parse, scrape))
            && |jobs| == |Get(request.fields, "jobs").value.items|
  {
    BackendBatchJobs(parse, parseJson(event.body.value).value, 0);
  }

  /** A missing or invalid body is a 400; a failure to create or close the browser is a 500. */
  lemma FailureStatuses(event: Event, parseJson: JsonParser, parse: UrlParser, createError: Option<string>,
                        scrape: ScrapeOutcomes, closeError: Option<string>)
    ensures !Truthy(event.body) ==>
      Answer(event, parseJson, parse, createError, scrape, closeError) == Reply(400, MessageBody("Request body is required"))
    ensures Truthy(event.body) && parseJson(event.body.value).Ok? && !Accepts(parse, BackendBatchSchema, parseJson(event.body.value).value) ==>
      Answer(event, parseJson, parse, createError, scrape, closeError).statusCode == 400
    ensures NeedsBrowser(event, parseJson, parse) && createError.Some? ==>
      Answer(event, parseJson, parse, createError, scrape, closeError) == Reply(500, InternalErrorBody(createError.value))
    ensures NeedsBrowser(event, parseJson, parse) && createError.None? && closeError.Some? ==>
      Answer(event, parseJson, parse, createError, scrape, closeError) == Reply(500, InternalErrorBody(closeError.value))
    ensures Answer(event, parseJson, parse, createError, scrape, closeError).headers == [ContentType, AllowOrigin]
  {
  }
}
