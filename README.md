# A verified model of the puppeteer scraper's job pipeline

This project models the core of a scraping service built from AWS Lambdas and Express routes.

- **Job intake.** Clients submit scrape jobs for a Wikipedia or a news page. The jobs are validated with zod schemas, given ids and queued on SQS.
- **Scraping.** A worker drains the queue. It asks a browser factory for a shared, kept-alive browser, and hands each valid job to its site's scraper.
- **Result assembly.** The scrapers assemble a screenshot URL, a markdown text and a list of links from the page.
- **Batch endpoints.** Two batch endpoints run a list of jobs at once. They answer with one entry per job.
- **Errors and polling.** Around all this sit the Express error middleware and a script that drains the response queue to a file.
- **Chat-bot waiter.** Scraping is paced by a waiter that watches a chat-bot page until its answer has stopped streaming.

Everything the code does through a foreign call is an input of the model:

- the clock (`Date.now` as given timestamps);
- `JSON.parse` (a parser function);
- `new URL` (a partial URL parser);
- `uuidv4` (a source of ids);
- `sqs.send` (a failure per send);
- the browser (its liveness, launch outcome and page steps);
- the page observations of the waiter (a sequence of ticks);
- the file system.

One module per core file, plus shared modules:

| module | source |
|---|---|
| `Wrappers`, `Text`, `Url`, `Json` | `Option`/`Result`; the JavaScript string operations used (`trim`, `includes`, `toLowerCase`, `join`); the URL parser as an input; JSON values with property read, `{ key, ...rest }` and `{ ...obj, key }` |
| `Schemas` | the zod schemas of src/types/job.types.ts, wiki-scraper-backend/src/types/scrape.types.ts and wiki-scraper-backend/src/validations/index.ts, run by a small zod interpreter that produces zod's issues (path and message) and its parsed data |
| `Lambda` | API Gateway events, `respond`, the SQS queue, and the `siteSchemas` lookup |
| `ChatBotWaiter` | src/utils/multiPlatformChatBotWaiter.ts |
| `Puppeteer`, `BrowserFactory`, `BackendBrowserFactory` | browser and page handles; src/scraper/browser-factory.ts (cached, kept alive, used by src/worker.ts and src/app.ts); wiki-scraper-backend/src/scraper/browser-factory.ts (stateless, used by the dispatcher) |
| `Extraction`, `Scrapers` | src/scraper/screenshot-helper.ts; src/scraper/wikipedia-scraper.ts and src/scraper/news-scraper.ts |
| `Errors` | aws-lambda-scraper-ts/src/utils/ApiError.ts, wiki-scraper-backend/src/middlewares/error.ts, src/middlewares/validate.ts |
| `JobApi`, `SiteApi`, `BackendApi` | src/api.ts, src/api/handler.ts, wiki-scraper-backend/src/api.ts |
| `Worker`, `Dispatch`, `BatchEndpoint` | src/worker.ts, wiki-scraper-backend/src/lambda/scrape-dispatcher.ts, the `/api/scrape` route of src/app.ts |
| `PollSqs` | scripts/pollSqs.ts |

Code that changes state step by step is modelled as classes with methods:

- the factory's module state;
- the browser and its pages;
- the SQS queue;
- the poller.

Loops keep their loops:

- container discovery and the poll loop of the waiter;
- link extraction;
- the description builder;
- the worker's record loop;
- the batch sends of src/api.ts.

Each such method is proved against a pure function of its inputs. The properties are proved about those functions.

## Model

| member | source | states |
|---|---|---|
| ChatBotWaiter.GetPlatformConfig | src/utils/multiPlatformChatBotWaiter.ts:168-187 | only a name without a profile gets the generic bundle, and no profile, built-in or generic, defines `additionalSelectors` |
| ChatBotWaiter.FirstHostMatch | src/utils/multiPlatformChatBotWaiter.ts:119-136 | reference for the URL checks: no platform iff no rule matches the host, otherwise the platform of the first rule that matches |
| ChatBotWaiter.FirstFlagged | src/utils/multiPlatformChatBotWaiter.ts:150-158 | reference for the DOM checks: no platform iff nothing is flagged, otherwise the first flagged platform |
| ChatBotWaiter.DetectPlatformOrder | src/utils/multiPlatformChatBotWaiter.ts:116-162 | an unreadable URL gives `generic`; otherwise the first host rule wins, then the first DOM fingerprint, then `generic` |
| ChatBotWaiter.HostChecksFollowRules | src/utils/multiPlatformChatBotWaiter.ts:122-136 | the URL checks run chatgpt, perplexity, claude, bing, bard in that order (they agree with the rule-list reference) |
| ChatBotWaiter.DomChecksFollowOrder | src/utils/multiPlatformChatBotWaiter.ts:139-156 | the DOM fingerprints are consulted in the same order (they agree with the first-flagged reference) |
| ChatBotWaiter.Configure | src/utils/multiPlatformChatBotWaiter.ts:92-101 | with no options the waiter uses 120000 ms, 30000 ms, 200 ms and a stable-count threshold of 4 |
| ChatBotWaiter.ContainerSelectors | src/utils/multiPlatformChatBotWaiter.ts:223-228 | at most two selectors, none empty, and the message container first when it is not empty |
| ChatBotWaiter.Discover | src/utils/multiPlatformChatBotWaiter.ts:230-244 | a container is found iff some selector resolves; the stopping selector resolves and every earlier one failed |
| ChatBotWaiter.Step | src/utils/multiPlatformChatBotWaiter.ts:324-344 | a changed, non-empty content resets both counters, records the time and pushes the non-blank new suffix; otherwise only the counters move, `stableCount` only when the height is unchanged; no chunk is ever blank |
| ChatBotWaiter.ReasonPriority | src/utils/multiPlatformChatBotWaiter.ts:346-366 | once complete, the reason follows completion-class, then not-streaming, then content-stable, and `no-activity` is never reported |
| ChatBotWaiter.PollLoop | src/utils/multiPlatformChatBotWaiter.ts:246-378 | the poll loop ends in the state and with the exit the tick-by-tick specification gives, and never keeps a blank chunk |
| ChatBotWaiter.Observe | src/utils/multiPlatformChatBotWaiter.ts:214-421 | with no container found the call fails with the no-container message; otherwise the result is built from the loop's final state; success iff the loop ended by completion or by time |
| ChatBotWaiter.WaitForChatBotResponse | src/utils/multiPlatformChatBotWaiter.ts:192-421 | the loop computes the specified response; `totalChunks` is the number of chunks, no chunk is blank, and success iff the loop ended by completion or by time |
| ChatBotWaiter.TimeoutReportedAsCompletion | src/utils/multiPlatformChatBotWaiter.ts:380-392 | leaving the loop on time returns exactly what a completion returns: success, `completed` and the last content |
| ChatBotWaiter.TimeUpOnlyAtDeadline | src/utils/multiPlatformChatBotWaiter.ts:246-247 | the loop stops on time only after a clock reading at or past `maxWaitTime` |
| ChatBotWaiter.TimeUpNeverBeforeDeadline | src/utils/multiPlatformChatBotWaiter.ts:246-247 | while every reading is within the budget, the loop never stops on time |
| ChatBotWaiter.PollContentObserved | src/utils/multiPlatformChatBotWaiter.ts:325-338 | across the whole loop no chunk is blank, and the last content is the starting one or the trimmed text of some snapshot |
| ChatBotWaiter.NoContainerFails | src/utils/multiPlatformChatBotWaiter.ts:214-244 | when no selector resolves the call fails with `error`, the container message, empty content and no chunks |
| ChatBotWaiter.ContentObserved | src/utils/multiPlatformChatBotWaiter.ts:325-334 | the returned content is empty or the trimmed text of one of the observed snapshots |
| ChatBotWaiter.FinishKeepsLoopState | src/utils/multiPlatformChatBotWaiter.ts:380-420 | both result shapes carry the last content, the chunks, their count, the duration and the platform name |
| ChatBotWaiter.SpinnerNeedsCustomSelector | src/utils/multiPlatformChatBotWaiter.ts:304-306 | without custom `additionalSelectors` the spinner is never seen and the input field never joins the container selectors |
| ChatBotWaiter.ReadyWithoutWaiting | src/utils/multiPlatformChatBotWaiter.ts:427-463 | `waitForChatBotReady` reports ready for every platform, since no profile names an input field or a send button |
| BrowserFactory.ProxyUrl | src/scraper/browser-factory.ts:38-51 | the proxy URL is empty iff a credential, the host or the port is missing, and otherwise embeds all four |
| BrowserFactory.FixedFlagsNeutral | src/scraper/browser-factory.ts:64-89 | none of the fixed launch flags sets the user agent or the proxy server |
| BrowserFactory.OwnArgsShape | src/scraper/browser-factory.ts:64-107 | the factory's own flags set the user agent exactly once, and name a proxy server iff a proxy flag was added |
| BrowserFactory.LaunchArgsLayout | src/scraper/browser-factory.ts:63-121 | the caller's arguments come first, then the fixed flags, then the user agent, and at most one more flag |
| BrowserFactory.OneUserAgent | src/scraper/browser-factory.ts:90 | the factory's flags carry exactly one `--user-agent=` |
| BrowserFactory.ProxyFlagIff | src/scraper/browser-factory.ts:94-119 | a `--proxy-server=` flag is added iff the proxy is configured, anonymizing it succeeds and its URL parses |
| BrowserFactory.WithoutProxyFlag | src/scraper/browser-factory.ts:218-220 | the filter keeps exactly the arguments that do not start with `--proxy-server=` |
| BrowserFactory.DevelopmentHasNoProxy | src/scraper/browser-factory.ts:198-221 | a development launch on macOS is headful and passes no proxy flag |
| BrowserFactory.ServerLaunchUsesArgs | src/scraper/browser-factory.ts:237-245 | off macOS the launch uses the flags, chromium's headless mode and the 30 s timeout |
| BrowserFactory.AfterProxyClose | src/scraper/browser-factory.ts:146-160 | the proxy server is cleared iff there was none or a truthy one closed without error |
| BrowserFactory.AfterLaunchArgs | src/scraper/browser-factory.ts:94-113 | a successful anonymization replaces the proxy server; otherwise it is kept |
| BrowserFactory.Factory.GetLaunchArgs | src/scraper/browser-factory.ts:63-122 | returns the specified flag list and updates `proxyServer` as specified |
| BrowserFactory.Factory.CloseProxyServer | src/scraper/browser-factory.ts:146-160 | `proxyServer` becomes what the close outcome specifies |
| BrowserFactory.Factory.Cleanup | src/scraper/browser-factory.ts:162-182 | afterwards no browser, no interval and no singleton remain even when `close()` threw; safe with no browser |
| BrowserFactory.Factory.CreateNewBrowser | src/scraper/browser-factory.ts:184-289 | succeeds iff no step fails; a new, open browser with the specified launch options whose probe page is closed; on failure the proxy server is closed and the error rethrown |
| BrowserFactory.Factory.ReleaseBrowser | src/scraper/browser-factory.ts:291-308 | every page that closes is closed, the browser itself is never closed, and nothing is thrown |
| BrowserFactory.Factory.CreateBrowser | src/scraper/browser-factory.ts:327-354 | a live cached browser is returned as is, with the timestamp refreshed and nothing launched; otherwise a new browser with the outcome's session id and one closed probe page is cached, the proxy server is the anonymized one, and a keep-alive starts unless one runs; or the cache and timers are left alone, the proxy is closed and the error rethrown; never left initializing |
| BrowserFactory.ModuleState.Load | src/scraper/browser-factory.ts:20-28 | the module starts with no browser, no interval and no singleton |
| BrowserFactory.ModuleState.StartKeepAlive | src/scraper/browser-factory.ts:375-395 | an existing interval is kept and no timer started; otherwise exactly one interval is started |
| BrowserFactory.ModuleState.KeepAliveTick | src/scraper/browser-factory.ts:378-394 | a good probe keeps the browser, opens and closes one page and refreshes the timestamp; a failed one drops the browser and clears the interval |
| BrowserFactory.NewFactory | src/scraper/browser-factory.ts:55-61 | the constructor returns the existing singleton, or makes and registers a new one; no other module state changes |
| BrowserFactory.Shutdown | src/scraper/browser-factory.ts:357-372 | with a singleton, shutdown clears browser, interval and singleton; without one nothing changes |
| Extraction.LinkOf | src/scraper/screenshot-helper.ts:54-64 | an `href` yields a link iff it is not empty, parses as an absolute URL and is `https:`; the link is the normalized `href` |
| Extraction.Candidates | src/scraper/screenshot-helper.ts:53-65 | the candidate links are exactly the links of the anchors, in document order |
| Extraction.Dedup | src/scraper/screenshot-helper.ts:51-67 | the `Set` keeps every candidate and holds each once |
| Extraction.DedupKeepsFirstOccurrenceOrder | src/scraper/screenshot-helper.ts:67 | `Array.from` lists the links in the order of their first occurrence |
| Extraction.ExtractLinks | src/scraper/screenshot-helper.ts:50-68 | the loop returns exactly the `https:` links of the anchors, each once, in first-occurrence order |
| Extraction.DescriptionRoot | src/scraper/screenshot-helper.ts:77-83 | the root is the first `article`, else the first `main`, else the first `section`, else `body` |
| Extraction.HeadingLevel | src/scraper/screenshot-helper.ts:98 | a heading's `#` count is `Number(tag[1])`, the digit of its two-character tag, from 1 to 3 |
| Extraction.FormatItemLayout | src/scraper/screenshot-helper.ts:94-109 | each item ends with its text, after a newline and `#`s for headings, `> ` for quotes and a bullet for list items; other tags give the bare text |
| Extraction.DescriptionItems | src/scraper/screenshot-helper.ts:88-110 | the items are exactly the formats of the root's non-blank elements |
| Extraction.ExtractLongFormDescription | src/scraper/screenshot-helper.ts:76-113 | the loop and the join compute the specified description |
| Extraction.BlankElementAddsNothing | src/scraper/screenshot-helper.ts:92 | an element whose text trims to nothing adds no item |
| Extraction.ItemIsNotBlank | src/scraper/screenshot-helper.ts:90-108 | no item is blank |
| Extraction.DescriptionEmptyIff | src/scraper/screenshot-helper.ts:86-112 | the description is empty iff no element of the root has non-blank text |
| Extraction.ContentType | src/scraper/screenshot-helper.ts:29 | `image/png` exactly for png and `image/jpeg` exactly for jpeg |
| Scrapers.FirstLinks | src/scraper/wikipedia-scraper.ts:29 | `slice(0, 100)` keeps the first 100 links, or all of them when there are fewer |
| Scrapers.ScrapeWikipedia | src/scraper/wikipedia-scraper.ts:12-36 | one new page; the errors of the navigation, `page.content()` and the screenshot are rethrown in that order; otherwise screenshot, description and first links; on every path the page is sent back to `about:blank` and left open; the browser is never closed |
| Scrapers.Prefix | src/scraper/news-scraper.ts:21 | `substring(0, 2000)` keeps at most the first 2000 characters |
| Scrapers.NewsMarkdownNeverBlank | src/scraper/news-scraper.ts:17-21 | the markdown is never blank: the description when it trims to more than one character, otherwise a title heading with the page's first 2000 characters |
| Scrapers.SingleCharacterDescriptionReplaced | src/scraper/news-scraper.ts:19 | a description of a single visible character is replaced by the fallback |
| Scrapers.ScrapeNews | src/scraper/news-scraper.ts:7-24 | one new page; the errors of the navigation, `page.title()`, `page.content()`, the screenshot and `page.close()` are rethrown in that order; otherwise the result has the specified markdown and first links; the page is closed iff the scrape succeeds; the browser is never closed |
| Schemas.NonEmptyFieldIff | src/types/job.types.ts:4 | `z.string().min(1)` accepts exactly a present string with at least one character |
| Schemas.UrlFieldIff | src/types/job.types.ts:5 | `z.string().url()` accepts exactly a present string that parses as a URL |
| Schemas.JobSchemasIdentical | src/types/job.types.ts:3-16 | the Wikipedia and news job schemas are the same schema and give the same verdicts and data |
| Schemas.JobAcceptedIff | src/types/job.types.ts:3-8 | a job is valid iff it is an object whose `user_id` is a non-empty string, whose `url` is a URL, and whose optional `job_id` and `metadata` have their types when present |
| Schemas.JobDataOmits | src/types/job.types.ts:3-8 | the parsed job is an object holding none of the unknown keys (zod strips them) |
| Schemas.OptionalFieldsMayBeAbsent | src/types/job.types.ts:6-7 | a job with only `user_id` and `url` is valid |
| Schemas.ActionAcceptedIff | src/types/job.types.ts:26-32 | an action is valid iff it is an object with a known `site_type` and valid job fields |
| Schemas.ActionKeepsSiteType | src/types/job.types.ts:27 | the parsed action keeps the request's `site_type`, which is one of the two site names |
| Schemas.BatchAcceptedIff | src/types/job.types.ts:37 | a batch is valid iff it is an array of valid actions; the empty array is valid |
| Schemas.BackendActionAcceptedIff | wiki-scraper-backend/src/types/scrape.types.ts:3-6 | a backend action is valid iff it is an object with a known `action` and an object `payload` |
| Schemas.SiteEnumText | wiki-scraper-backend/src/types/scrape.types.ts:4 | the enum message lists the sites as `'wikipedia' \| 'news'` |
| Schemas.UnknownActionIssue | wiki-scraper-backend/src/types/scrape.types.ts:4 | an unknown `action` string is reported at `action` with the enum message listing `'wikipedia' \| 'news'` |
| Schemas.BackendBatchAcceptedIff | wiki-scraper-backend/src/types/scrape.types.ts:9-11 | a batch request is valid iff it is an object whose `jobs` is an array of valid actions |
| Schemas.BackendActionKeepsAction | wiki-scraper-backend/src/types/scrape.types.ts:4 | the parsed action keeps the request's `action`, which is known |
| Schemas.BackendBatchJobs | wiki-scraper-backend/src/types/scrape.types.ts:9-11 | the parsed batch's `jobs` has one parsed action per raw job, in the same order |
| Schemas.EmptyBackendBatchAccepted | wiki-scraper-backend/src/types/scrape.types.ts:9-11 | `{ jobs: [] }` is a valid batch request |
| Schemas.UrlIssues | wiki-scraper-backend/src/validations/index.ts:5-11 | the URL check and the Wikipedia-prefix refinement each add their own message, in that order |
| Schemas.ScrapeBodyAcceptedIff | wiki-scraper-backend/src/validations/index.ts:3-12 | a body is valid iff its `url` is a string that parses and starts with `https://en.wikipedia.org/wiki/` |
| Schemas.ScrapeBodyMessages | wiki-scraper-backend/src/validations/index.ts:5-11 | the issues for a body's `url` are the URL message, the Wikipedia message, both or neither, at path `url` |
| Schemas.ValidationChecksOnlyBody | wiki-scraper-backend/src/validations/index.ts:15-19 | the route validator reports exactly the body's issues under `body`, whatever query and params hold |
| Schemas.SafeParse | src/types/job.types.ts:3-37 | `safeParse` succeeds iff the value is accepted; a failure carries a non-empty list of issues |
| Errors.NewApiError | aws-lambda-scraper-ts/src/utils/ApiError.ts:8-25 | the error keeps its status, message, errors and flag, and its stack is the given one when it is not empty, otherwise the captured trace |
| Errors.FactoryStatuses | aws-lambda-scraper-ts/src/utils/ApiError.ts:27-49 | the factories give 400, 401, 403, 404, 409 and 500, with the given message or the defaults `Unauthorized`, `Forbidden`, `Not Found` and `Internal Server Error` (`Conflict` always takes its message), and are operational |
| Errors.ErrorConverter | wiki-scraper-backend/src/middlewares/error.ts:9-25 | an `ApiError` passes unchanged; anything else gets its status or 500, its message or the status phrase or `Internal Server Error`, is not operational, and keeps its stack or takes the captured trace when it has none |
| Errors.ErrorHandler | wiki-scraper-backend/src/middlewares/error.ts:30-51 | the reply's status is the error's; the body's `code` is the status and its `message` the error's message; `errors` appears iff the error has some, and is then those; `stack` appears iff in development, and is then the error's stack |
| Errors.NotFoundForward | wiki-scraper-backend/src/middlewares/error.ts:56-58 | unknown routes forward an operational 404 `Not found` |
| Errors.UnknownErrorBecomes500 | wiki-scraper-backend/src/middlewares/error.ts:17-20 | an error with no status and no message is answered 500 with `code` 500 |
| Errors.SegmentTexts | src/middlewares/validate.ts:17 | `path.join('.')` writes keys as they are and indices in decimal |
| Errors.IssueMessages | src/middlewares/validate.ts:16-18 | one `{ message }` object per issue, in issue order |
| Errors.ValidateNextIff | src/middlewares/validate.ts:5-24 | `next()` is called with no error iff the parse neither throws nor finds an issue; a thrown non-zod error is forwarded as is |
| Errors.ValidateWrapsIssues | src/middlewares/validate.ts:15-19 | a zod failure becomes a 400 `Validation error` carrying one message per issue |
| Errors.WikipediaRouteMessages | wiki-scraper-backend/src/validations/index.ts:3-19 | a URL that is neither valid nor on Wikipedia reports both messages as `body.url is …`, in schema order |
| Lambda.Respond | src/api.ts:94-104 | a reply carries its status and body, the content-type and origin headers first, and the credentials header only where the handler sends it |
| Lambda.Queue.Send | src/api.ts:43-48 | a send that succeeds appends its body to the queue; a failed one delivers nothing and returns its error |
| Lambda.SiteFor | src/api/handler.ts:19-20 | the corrected lookup: a site exactly for the two own keys `wikipedia` and `news`, named by its key |
| Lambda.LookupAsWritten | src/api/handler.ts:19-20 | the lookup as written: the own keys give their schema, and every `Object.prototype` key gives an inherited value |
| Lambda.ConstructorPassesGuard | src/api/handler.ts:19-24 | `site_type: "constructor"` passes the `!schema` guard as written, while the corrected lookup rejects it |
| Lambda.LookupsAgreeOnOwnKeys | src/api/handler.ts:19-20 | the two lookups agree on every key that is not inherited |
| Lambda.OwnLookup | src/api/handler.ts:19-20 | the intended lookup in the shape of the property read: never an inherited value, and an own schema exactly for the two site names, the one the corrected lookup gives |
| JobApi.SuppliedId | src/api.ts:36 | a kept id is a non-empty string `job_id` of the job (the `\|\|` keeps only truthy ids) |
| JobApi.AssignIds | src/api.ts:34-37 | one job out per job in, in order |
| JobApi.AssignedId | src/api.ts:34-37 | each queued job keeps its truthy `job_id`, otherwise gets the uuid drawn after those of the earlier id-less jobs |
| JobApi.FreshCountGrows | src/api.ts:36 | every id-less job draws one more uuid than the jobs before it |
| JobApi.GeneratedIdsDistinct | src/api.ts:34-37 | with distinct uuids, two id-less jobs of a batch never get the same id |
| JobApi.IdList | src/api.ts:54 | the reply lists the queued jobs' ids, one per job, in order |
| JobApi.FirstFailure | src/api.ts:41-50 | the batch fails iff some send fails |
| JobApi.DeliveredAll | src/api.ts:41-50 | when no send fails, every job is delivered in order |
| JobApi.SendAll | src/api.ts:41-50 | every job is sent in order, the queue gains exactly the delivered ones, and the error reported is the first failure's |
| JobApi.Handler | src/api.ts:16-92 | the handler answers as specified and appends exactly the delivered jobs to the queue |
| JobApi.OptionsAnsweredFirst | src/api.ts:20-22 | a preflight request is answered `200 {}` whatever its body, and nothing is queued |
| JobApi.AlwaysThreeHeaders | src/api.ts:94-104 | every answer, errors included, carries the three headers |
| JobApi.MissingBodyRejected | src/api.ts:24-26 | a missing or empty body is a 400 `Request body is required` |
| JobApi.UnparsableBodyIs500 | src/api.ts:28-91 | a body that is not JSON is caught and answered 500 with the parser's message, and nothing is queued |
| JobApi.BatchQueuesEveryJob | src/api.ts:31-56 | a valid batch whose sends all succeed queues one job per element, with assigned ids, and replies with their count and ids |
| JobApi.InvalidInputQueuesNothing | src/api.ts:59-68 | a body that is neither a batch nor an action is a 400 with the single-action issues, and nothing is queued |
| JobApi.SingleJobQueuedOnce | src/api.ts:59-84 | a valid single action is queued once with its id and answered with that id and its `site_type` |
| SiteApi.Rest | src/api/handler.ts:18 | `rest` is an object without `site_type` |
| SiteApi.QueuedMessage | src/api/handler.ts:29 | the message body is an object |
| SiteApi.Handler | src/api/handler.ts:15-34 | the handler answers or rejects as the as-written specification does, inherited `site_type` keys included, and sends exactly the specified message |
| SiteApi.AnswersHaveTwoHeaders | src/api/handler.ts:36-42 | every answer carries the two headers and no credentials header |
| SiteApi.QueuedOnlyOnSuccess | src/api/handler.ts:15-33 | a message is queued iff the answer is 200, and at most one |
| SiteApi.UnknownSiteRejected | src/api/handler.ts:19-20 | a `site_type` that is neither a site name nor an `Object.prototype` member, or none, is a 400 `Unknown site_type` and nothing is queued |
| SiteApi.PrototypeKeyThrows | src/api/handler.ts:19-22 | a `site_type` naming an `Object.prototype` member passes the guard, and the invocation rejects with `schema.safeParse is not a function`; nothing is queued |
| SiteApi.CorrectedUnknownSiteRejected | src/api/handler.ts:19-20 | with the intended lookup, every `site_type` that is not a site name is a 400 `Unknown site_type` and nothing is queued |
| SiteApi.HandlesDifferOnPrototypeKeys | src/api/handler.ts:19-22 | the handler as written and as intended give different results exactly when the looked-up key is an `Object.prototype` member |
| SiteApi.ThrowsOnNullOrUnparsable | src/api/handler.ts:18 | a `null` body and a body that is not JSON reject the invocation with the thrown message |
| SiteApi.QueuedMessageReads | src/api/handler.ts:29 | the message reads back its `site_type` and every other key as the data has it |
| SiteApi.SuccessfulHandle | src/api/handler.ts:15-33 | a known site, a valid job and a send that succeeds give a 200 and one queued message |
| SiteApi.QueuedJobKeepsSiteAndData | src/api/handler.ts:18-33 | the queued message holds the request's `site_type` and otherwise exactly the validated job |
| BackendApi.Rest | wiki-scraper-backend/src/api.ts:31 | `rest` is an object without `site_type` |
| BackendApi.QueuedJob | wiki-scraper-backend/src/api.ts:45-48 | the queued job is an object |
| BackendApi.Handler | wiki-scraper-backend/src/api.ts:18-67 | the handler answers as the as-written specification does, inherited `site_type` keys included, and sends exactly the specified job |
| BackendApi.OptionsAnsweredFirst | wiki-scraper-backend/src/api.ts:22-24 | a preflight request is answered `200 {}` and nothing is queued |
| BackendApi.AnswersAndQueue | wiki-scraper-backend/src/api.ts:18-79 | every answer has the three headers; a job is queued iff the answer is 200 to a request that is not a preflight, and at most one |
| BackendApi.ThrownErrorsAre500 | wiki-scraper-backend/src/api.ts:30-66 | a body that is not JSON or is `null` ends in the `catch` as a 500 with the thrown message |
| BackendApi.UnknownSiteRejected | wiki-scraper-backend/src/api.ts:33-37 | a `site_type` that is neither a site name nor an `Object.prototype` member, or none, is a 400 `Unknown site_type` |
| BackendApi.PrototypeKeyIs500 | wiki-scraper-backend/src/api.ts:33-66 | a `site_type` naming an `Object.prototype` member passes the guard, and the `catch` answers 500 with `schema.safeParse is not a function`; nothing is queued |
| BackendApi.CorrectedUnknownSiteRejected | wiki-scraper-backend/src/api.ts:33-37 | with the intended lookup, every `site_type` that is not a site name is a 400 `Unknown site_type` |
| BackendApi.HandlesDifferOnPrototypeKeys | wiki-scraper-backend/src/api.ts:33-66 | the handler as written and as intended give different results exactly when the looked-up key is an `Object.prototype` member |
| BackendApi.SuccessfulHandle | wiki-scraper-backend/src/api.ts:30-59 | a known site, a valid job and a send that succeeds give a 200 and one queued job |
| BackendApi.QueuedJobReads | wiki-scraper-backend/src/api.ts:45-48 | the job's `action` reads the site and its `payload` the data with the new `job_id` |
| BackendApi.QueuedJobGetsNewId | wiki-scraper-backend/src/api.ts:39-59 | a valid job is queued once; its `job_id` is the new uuid even when the client sent one, its other keys are kept, and the reply names the same id |
| Worker.Classified | src/worker.ts:35-61 | one classification per record, the record's own |
| Worker.CallsOf | src/worker.ts:33-69 | at most one call per classified record |
| Worker.Calls | src/worker.ts:33-69 | no more processor calls than records |
| Worker.ProcessRecords | src/worker.ts:33-69 | the record loop makes exactly the calls `Calls` lists, skipping the records that do not parse or validate |
| Worker.CallsOfValid | src/worker.ts:35-61 | every call is for a record that was classified with that site and job |
| Worker.CallsOfOrdered | src/worker.ts:33 | calls are in strictly increasing record order |
| Worker.CallsOfComplete | src/worker.ts:33-69 | every classified record gets its call |
| Worker.Handler | src/worker.ts:18-80 | a live cached browser is reused, otherwise the call fails or yields a fresh one; without a browser or a record array nothing is processed; otherwise exactly the specified calls are made; the browser is closed when `close()` succeeds |
| Worker.CallsAreValidRecords | src/worker.ts:35-61 | every call is for a record that parses and validates, with that record's validated job |
| Worker.CallsInRecordOrder | src/worker.ts:33 | records are processed in order, each at most once |
| Worker.ValidRecordsAreCalled | src/worker.ts:33-69 | every valid record is processed, whatever the other records do |
| Worker.RecordProcessedIff | src/worker.ts:35-52 | a record is processed iff its body parses and is a valid action, and then by the processor of its `site_type` |
| Dispatch.EntryFor | wiki-scraper-backend/src/lambda/scrape-dispatcher.ts:20-44 | each entry echoes the job's `action`; it succeeds iff it carries no error, and a success carries the scrape result |
| Dispatch.Results | wiki-scraper-backend/src/lambda/scrape-dispatcher.ts:19-46 | one entry per job |
| Dispatch.Handler | wiki-scraper-backend/src/lambda/scrape-dispatcher.ts:8-58 | the handler answers as specified, a launch error being a 500; no browser is launched unless the batch is valid; a browser is launched iff launching does not throw, is a new one with the backend factory's default options, and is closed iff `close()` succeeds |
| BackendBrowserFactory.Factory.constructor | wiki-scraper-backend/src/scraper/browser-factory.ts:20-22 | the factory only stores its config |
| BackendBrowserFactory.Factory.CreateBrowser | wiki-scraper-backend/src/scraper/browser-factory.ts:24-61 | every call launches a new, open browser with no pages and the factory's options; a launch error is rethrown unchanged |
| BackendBrowserFactory.ConfigIgnoredOffMacOS | wiki-scraper-backend/src/scraper/browser-factory.ts:42-50 | outside macOS the config, proxy included, does not change the launch, which uses Chromium's arguments |
| BackendBrowserFactory.MacOSProxyFlagIff | wiki-scraper-backend/src/scraper/browser-factory.ts:25-38 | on macOS, without launch options in the config, the launch is headful and has a `--proxy-server=` flag iff the config has a non-empty proxy, and then only that flag |
| BackendBrowserFactory.EmptyConfigLaunch | wiki-scraper-backend/src/scraper/browser-factory.ts:24-50 | `new BrowserFactory()` launches with no arguments and headful on macOS, and with Chromium's arguments and headless mode elsewhere |
| Dispatch.ResultsPerJob | wiki-scraper-backend/src/lambda/scrape-dispatcher.ts:19-46 | a job's entry depends only on that job and its own scrape, and it sits at the job's position |
| Dispatch.UnknownActionEntry | wiki-scraper-backend/src/lambda/scrape-dispatcher.ts:21-24 | a job without a scraper gets `Unknown action` |
| Dispatch.InvalidPayloadEntry | wiki-scraper-backend/src/lambda/scrape-dispatcher.ts:25-33 | a payload that fails its site's schema gets `Invalid payload` with the issues as data |
| Dispatch.ValidJobEntry | wiki-scraper-backend/src/lambda/scrape-dispatcher.ts:34-44 | a valid job gets its scrape's result, or its error message when the scrape throws |
| Dispatch.ValidatedBatchHasNoUnknownAction | wiki-scraper-backend/src/lambda/scrape-dispatcher.ts:12-24 | after the batch schema has passed, every job has a scraper, so the `Unknown action` branch cannot be taken |
| Dispatch.ReplyListsEveryJob | wiki-scraper-backend/src/lambda/scrape-dispatcher.ts:12-51 | a valid batch, with browser and close succeeding, is answered 200 with one result per submitted job |
| Dispatch.FailureStatuses | wiki-scraper-backend/src/lambda/scrape-dispatcher.ts:8-66 | no body is a 400, an invalid batch is a 400, a browser or close failure is a 500 with its message, and every answer has the two headers |
| BatchEndpoint.Scrape | src/app.ts:75-124 | the route replies as specified; an invalid body asks for no browser; a browser it got is cached and kept alive, and is closed when `close()` succeeds |
| BatchEndpoint.InvalidBodyRejected | src/app.ts:76-79 | a body that fails the batch schema is answered 400 with its issues, and only such a body is; an absent body always is |
| BatchEndpoint.BrowserFailuresAre500 | src/app.ts:81-123 | a failure to create or to close the browser is a 500 `Internal server error` with its message |
| BatchEndpoint.SameResultsAsDispatcher | src/app.ts:85-117 | for the same request the endpoint and the dispatcher send the same `results` with status 200 |
| PollSqs.IndexOf | scripts/pollSqs.ts:136 | `indexOf` gives -1 iff the flag is absent, otherwise the position of its first occurrence |
| PollSqs.QueueUrlAfterFirstFlag | scripts/pollSqs.ts:135-139 | the URL is the argument right after the first `--queue-url` |
| PollSqs.NoQueueUrlIff | scripts/pollSqs.ts:137-140 | there is no URL iff the flag is absent or its first occurrence is the last argument |
| PollSqs.StartsIff | scripts/pollSqs.ts:143-151 | polling starts iff the URL exists and is not empty |
| PollSqs.SqsPoller.LoadExistingResponses | scripts/pollSqs.ts:24-39 | `responseData` becomes what loading specifies |
| PollSqs.SqsPoller.PollQueue | scripts/pollSqs.ts:56-120 | `responseData`, the files written and the deletes made follow the poll's specification |
| PollSqs.LoadedIff | scripts/pollSqs.ts:24-39 | loading gives `[]` after a failed read, a failed parse or `null` contents, and otherwise exactly the parsed contents |
| PollSqs.OnlyFirstMessage | scripts/pollSqs.ts:59-69 | only `Messages[0]` is handled: the rest of the batch changes nothing, and at most one delete is made |
| PollSqs.NothingReceived | scripts/pollSqs.ts:65-119 | a failed receive or an empty batch changes nothing |
| PollSqs.ParsedBodyAppended | scripts/pollSqs.ts:72-82 | a body that parses to a value other than `null` is appended at the end, the whole array is written, and the message is deleted |
| PollSqs.UnparsableBodyKeepsData | scripts/pollSqs.ts:83-93 | a body that is not JSON leaves `responseData` unchanged and goes to a bad-message file; it is deleted unless that file cannot be written |
| PollSqs.AbsentBodyIsUndefined | scripts/pollSqs.ts:73-92 | an absent body is parsed as the text `undefined` and saved as the empty text |
| PollSqs.WriteFailureKeepsAppend | scripts/pollSqs.ts:81-93 | a failed output write keeps the pushed body in memory and also sends the message to a bad-message file |
| PollSqs.DeleteAttemptedIff | scripts/pollSqs.ts:95-111 | the delete is attempted iff a message arrived and its handling did not end in a failed bad-message write; it uses the message's receipt handle |
| PollSqs.PollOnlyAppends | scripts/pollSqs.ts:81-82 | a poll only appends: old responses stay a prefix, at most one is added, and a write, if made, writes the whole new array |
| PollSqs.NonArrayTakesNothing | scripts/pollSqs.ts:27-81 | loaded data that is not an array never takes a body, since `push` throws |
| Json.Get | src/api/handler.ts:18 | a property read finds a value iff the key is present |
| Json.GetFindsLast | src/api/handler.ts:18 | the value a property read finds is that of the last entry with the key |
| Json.Without | src/api/handler.ts:18 | `{ site_type, ...rest }`: `rest` holds every entry of the object except `site_type` |
| Json.Set | src/api.ts:34-37 | `{ ...job, job_id }` overrides an existing `job_id` in place, and otherwise adds it at the end |
| Json.SetThenGet | src/api.ts:34-37 | after the override `job_id` reads the new value and every other key reads as before |
| Json.HasKeyAppend | src/api/handler.ts:29 | a spread object has a key iff one of its parts has it |
| Json.GetAppend | src/api/handler.ts:29 | in `{ site_type, ...data }` a key of `data` wins over the leading `site_type` |
| Text.TrimEmptyIff | src/scraper/screenshot-helper.ts:90-92 | a text trims to nothing iff it is white space only |
| Text.TrimIdempotent | src/scraper/news-scraper.ts:19 | trimming twice is trimming once |
| Text.Contains | src/utils/multiPlatformChatBotWaiter.ts:122 | `includes` holds iff the needle occurs at some position |

## Left out

- Browsers and pages are abstract handles. Launching Chromium, `page.evaluate`, DOM queries and screenshots are foreign calls. Their outcomes are inputs of the model: liveness, launch result, session id, page observations, page content and screenshot URL.
- Time and timers (`Date.now`, `setTimeout`, `setInterval`, `sleep`, the 60 s keep-alive period) are inputs. The keep-alive timer firing is the method `KeepAliveTick`, and timers are counted, not scheduled.
- Concurrency is modelled sequentially, because the model has no interleavings. This covers:
  - the `isBrowserInitializing` wait loop in src/scraper/browser-factory.ts:334-339, which is left out (`ModuleState.Valid` requires that no creation is in progress);
  - `Promise.all` over the jobs in src/app.ts:85 and wiki-scraper-backend/src/lambda/scrape-dispatcher.ts:19;
  - the parallel sends in src/api.ts:41-50. These are sent in job order, and when several sends fail the reported error is the one of the first failing job.
- `averageChunkSize` is omitted from the waiter's result, since it is a floating-point division; `totalChunks` is kept.
- ChatBotWaiter.WaitForChatBotResponse: the observations are a finite sequence of ticks. Running out of ticks ends the loop like reaching `maxWaitTime`, and both are reported as a completion. The source loop instead keeps polling until the clock passes the budget.
- ChatBotWaiter.GetPlatformConfig takes one of the detected platforms, not an arbitrary string. `detectPlatform` only returns those names, and every other name is the generic bundle, as `Generic` is here.
- ChatBotWaiter.Poll: one tick's time stands for both clock readings of an iteration, the loop guard's `Date.now()` (src/utils/multiPlatformChatBotWaiter.ts:246) and `currentTime` (line 247). In the source they can differ.
- The waiter's debug logging and the `Response completed` log line are not modelled. The completion reason the log line reports is kept as `ReasonOf`.
- The request-interception filter of src/scraper/browser-factory.ts:253-267 is left out. It is installed on a page that is already closed, so it never takes effect.
- `setupProxyAuth` only logs and returns, so it is not modelled.
- `closeWithProxy` and `getBrowser` are never called by the modelled code, so they are not modelled.
- The keep-alive probe's page is modelled as opened and closed on success. What happens to it when the probe fails is not modelled.
- `proxyChain.anonymizeProxy`, `closeAnonymizedProxy`, `new UserAgent()` and `uuidv4` are inputs.
- `new URL` is a partial function supplied by the caller: the basic URL parser of the WHATWG URL Standard. zod's `.url()` is "this parser does not throw".
- Text operations work per character. JavaScript strings are UTF-16, and surrogate pairs, Unicode case mapping beyond ASCII are not modelled. `Text.IsSpace` is the white space `trim` removes: the ECMAScript WhiteSpace and LineTerminator characters, with U+FEFF, and the Unicode space separators.
- Only the parts of zod the schemas use are modelled:
  - issues carry only `path` and `message`;
  - numbers are integers, so fractions and exponents are not represented.
- JSON text is not modelled:
  - `JSON.stringify`'s text encoding is left out;
  - message and response bodies are JSON values;
  - the key order of bodies built from object literals follows the source literals;
  - a `__proto__` key in a parsed record is treated as an ordinary key.
- `String(v)` on a parsed object is `[object Object]`, and on an array it is the comma-joined elements. Parsed JSON objects carrying their own `toString` or `valueOf`, which can make V8 throw, are not modelled.
- Thrown messages are the V8 wording for destructuring `null`. The `http-status` reason phrases and `Error.captureStackTrace` are inputs.
- A thrown value that is not an `Error` is shown as its message text. The `'Unknown error'` and `String(err)` distinctions collapse into that text.
- wiki-scraper-backend/src/scraper/scraper.constants.ts is not part of this model. The dispatcher uses the site map of src/scraper/scraper.constants.ts: `wikipedia` and `news`, each with its job schema.
- What `processJob` and the scrapers do with the browser inside the worker is outside the model. A call is recorded with its record index, site and validated job.
- Errors.WikipediaRouteMessages reports issues as src/middlewares/validate.ts does. wiki-scraper-backend/src/routes/wiki.routes.ts imports its own `../middlewares/validate`, which is not part of this model.
- BatchEndpoint takes the backend's batch schema and error middleware for the `./types/scrape.types` and `./middlewares/error` modules src/app.ts imports. Those files of the root project are not part of this model.
- `LaunchOptions` has no viewport: the backend factory's `defaultViewport` (1920x1080 on macOS, Chromium's elsewhere) and its log lines are not modelled, and its config stands for the `proxy`, `args` and `headless` keys only.
- Dispatch and BatchEndpoint take each job's scrape outcome as an input. That outcome is not tied to Scrapers.ScrapeWikipedia or Scrapers.ScrapeNews.
- Scrapers.ScrapeWikipedia leaves out the awaited `waiter.waitForChatBotResponse()` of src/scraper/wikipedia-scraper.ts:15-21. The waiter is modelled on its own in ChatBotWaiter.
- Express's `express.json` body parsing is not modelled. The `/api/scrape` route receives `req.body` already parsed, or absent.
- In scripts/pollSqs.ts:
  - the file writes, their paths (`__dirname`, `Date.now()` in the bad-message name) and the text written are not modelled. The poller records the values written to the output file and the texts written to bad-message files;
  - the logger is not modelled;
  - the infinite loop of `start` and `process.exit` are not modelled;
  - a missing `--queue-url` is `StartUrl` returning `None`.
- Loggers, configuration, routes, the S3 helpers, the proxy HTTP client, the SIGINT and exit hooks, and the other Express and Lambda wiring are not part of this model. They hold no logic beyond I/O.

## Findings

| source | as written | input that shows it | evidently intended | confidence | as-written member | corrected member |
|---|---|---|---|---|---|---|
| src/api/handler.ts:19-20 | `siteSchemas[site_type]` is an ordinary property read on an object literal, so a key inherited from `Object.prototype` finds a truthy function and passes the `!schema` guard; `schema.safeParse` then throws and the invocation rejects | a body `{"site_type": "constructor"}` | only the two own keys name a site, and every other `site_type` gets 400 `Unknown site_type` | not executed | SiteApi.PrototypeKeyThrows | SiteApi.CorrectedUnknownSiteRejected |
| wiki-scraper-backend/src/api.ts:33-37 | the same property read on `siteSchemas`; the `TypeError` from `schema.safeParse` ends in the `catch` as a 500 | a body `{"site_type": "constructor"}` | every `site_type` that is not a site name gets 400 `Unknown site_type` | not executed | BackendApi.PrototypeKeyIs500 | BackendApi.CorrectedUnknownSiteRejected |
