/**
 * The SQS worker Lambda of src/worker.ts: it obtains one browser from the
 * factory, then walks the batch's records in order, skipping a record
 * whose body is not JSON or is not a valid scrape action and handing every
 * other one to its site's processor; whatever a record throws is caught
 * there, and the browser is closed at the end even when something failed.
 * What a processor does with the browser is outside the model: a call is
 * recorded as the record's index, its site and the validated job.
 */
module Worker {
  import opened Wrappers
  import opened Url
  import opened Json
  import opened Schemas
  import opened Lambda
  import opened Puppeteer
  import opened BrowserFactory

  /** One `processJob(browser, job)` call. */
  datatype Call = Call(record: nat, site: Site, job: Json)

  /** The processor a record body reaches, with the job it is given; `None` when the record is skipped. */
  function JobFor(body: string, parseJson: JsonParser, parse: UrlParser): Option<(Site, Json)> {
    match parseJson(body)
    case Err(_) => None
    case Ok(raw) =>
      match SafeParse(parse, ScrapeActionSchema, raw)
      case Err(_) => None
      case Ok(data) =>
        match SiteFor(SiteKey(Member(data, "site_type")))
        case None => None
        case Some(site) => Some((site, data))
  }

  /** What `JobFor` makes of each record body, in record order. */
  function Classified(records: seq<string>, parseJson: JsonParser, parse: UrlParser): (r: seq<Option<(Site, Json)>>)
    ensures |r| == |records| && forall i :: 0 <= i < |records| ==> r[i] == JobFor(records[i], parseJson, parse)
  {
    seq(|records|, i requires 0 <= i < |records| => JobFor(records[i], parseJson, parse))
  }

  /** One call per classified record, the `k`-th record's call carrying index `k`. */
  function CallsOf(jobs: seq<Option<(Site, Json)>>): (r: seq<Call>)
    ensures |r| <= |jobs|
  {
    if jobs == [] then []
    else
      var n := |jobs| - 1;
      CallsOf(jobs[..n]) + (if jobs[n].Some? then [Call(n, jobs[n].value.0, jobs[n].value.1)] else [])
  }

  /** Classifying one more record adds its call, if any, after the earlier ones. */
  lemma CallsOfStep(jobs: seq<Option<(Site, Json)>>, i: nat)
    requires i < |jobs|
    ensures CallsOf(jobs[..i + 1]) == CallsOf(jobs[..i]) + (if jobs[i].Some? then [Call(i, jobs[i].value.0, jobs[i].value.1)] else [])
  {
    assert jobs[..i + 1][..i] == jobs[..i];
  }

  /** The processor calls for a batch of record bodies, in record order. */
  function Calls(records: seq<string>, parseJson: JsonParser, parse: UrlParser): (r: seq<Call>)
    ensures |r| <= |records|
  {
    CallsOf(Classified(records, parseJson, parse))
  }

  /** The record loop: each record is parsed, validated and handed to its processor, or skipped. */
  method ProcessRecords(recs: seq<string>, parseJson: JsonParser, parse: UrlParser) returns (calls: seq<Call>)
    ensures calls == Calls(recs, parseJson, parse)
  {
    ghost var jobs := Classified(recs, parseJson, parse);
    calls := [];
    var i := 0;
    while i < |recs|
      invariant 0 <= i <= |recs|
      invariant calls == CallsOf(jobs[..i])
    {
      CallsOfStep(jobs, i);
      assert jobs[i] == JobFor(recs[i], parseJson, parse);
      var rawBody := parseJson(recs[i]);
      if rawBody.Err? {
        i := i + 1;
        continue;
      }
      var parsedPayload := SafeParse(parse, ScrapeActionSchema, rawBody.value);
      if parsedPayload.Err? {
        i := i + 1;
        continue;
      }
      var site := SiteFor(SiteKey(Member(parsedPayload.value, "site_type")));
      if site.None? {
        i := i + 1;
        continue;
      }
      calls := calls + [Call(i, site.value, parsedPayload.value)];
      i := i + 1;
    }
    assert jobs[..|recs|] == jobs;
  }

  /**
   * `handler`: `records` is `event.Records` when it is an array (`None`
   * otherwise); `alive`, `outcome` and the rest describe what the factory's
   * calls do, and `closeOk` whether `browser.close()` succeeds. Returns the
   * processor calls made and the browser obtained, if any.
   */
  method Handler(m: ModuleState, proxyConfig: ProxyConfig, alive: bool, now: int, env: HostEnv, userAgent: string,
                 anonymize: Anonymizer, parse: UrlParser, outcome: CreateOutcome,
                 records: Option<seq<string>>, parseJson: JsonParser, closeOk: bool)
    returns (calls: seq<Call>, browser: Browser?)
    requires m.Valid()
    modifies m, m.factoryInstance, m.browserInstance
    ensures m.Valid()
    ensures old(m.browserInstance) != null && alive ==> browser == old(m.browserInstance)
    ensures !(old(m.browserInstance) != null && alive) ==>
      (browser == null <==> CreateError(outcome).Some?) && (browser != null ==> fresh(browser))
    ensures browser != null ==> m.browserInstance == browser
    ensures browser != null && closeOk ==> browser.closed
    ensures calls == if browser == null || records.None? then [] else Calls(records.value, parseJson, parse)
  {
    var factory := NewFactory(m, BrowserConfig(None, None, None), proxyConfig);
    var created := factory.CreateBrowser(m, alive, now, env, userAgent, anonymize, parse, outcome);
    calls := [];
    browser := null;
    if created.Ok? {
      browser := created.value;
      if records.Some? {
        calls := ProcessRecords(records.value, parseJson, parse);
      }
      if closeOk {
        browser.Close();
      }
    }
  }

  // ---- properties of the record loop ----

  /** Each call names a classified record and carries its site and job. */
  lemma {:induction false} CallsOfValid(jobs: seq<Option<(Site, Json)>>, k: nat)
    requires k < |CallsOf(jobs)|
    ensures var c := CallsOf(jobs)[k]; c.record < |jobs| && jobs[c.record] == Some((c.site, c.job))
  {
    var n := |jobs| - 1;
    if k < |CallsOf(jobs[..n])| {
      CallsOfValid(jobs[..n], k);
    }
  }

  /** Calls come in strictly increasing record order. */
  lemma {:induction false} CallsOfOrdered(jobs: seq<Option<(Site, Json)>>, a: nat, b: nat)
    requires a < b < |CallsOf(jobs)|
    ensures CallsOf(jobs)[a].record < CallsOf(jobs)[b].record
  {
    var n := |jobs| - 1;
    if b < |CallsOf(jobs[..n])| {
      CallsOfOrdered(jobs[..n], a, b);
    } else {
      CallsOfValid(jobs[..n], a);
    }
  }

  /** Every classified record is called. */
  lemma {:induction false} CallsOfComplete(jobs: seq<Option<(Site, Json)>>, i: nat)
    requires i < |jobs| && jobs[i].Some?
    ensures Call(i, jobs[i].value.0, jobs[i].value.1) in CallsOf(jobs)
  {
    var n := |jobs| - 1;
    if i < n {
      assert jobs[..n][i] == jobs[i];
      CallsOfComplete(jobs[..n], i);
    }
  }

  /** Every call is for a record that parses and validates, with that record's job. */
  lemma CallsAreValidRecords(records: seq<string>, parseJson: JsonParser, parse: UrlParser, k: nat)
    requires k < |Calls(records, parseJson, parse)|
    ensures var c := Calls(records, parseJson, parse)[k];
            c.record < |records| && JobFor(records[c.record], parseJson, parse) == Some((c.site, c.job))
  {
    CallsOfValid(Classified(records, parseJson, parse), k);
  }

  /** Records are visited in order, each at most once. */
  lemma CallsInRecordOrder(records: seq<string>, parseJson: JsonParser, parse: UrlParser, a: nat, b: nat)
    requires a < b < |Calls(records, parseJson, parse)|
    ensures Calls(records, parseJson, parse)[a].record < Calls(records, parseJson, parse)[b].record
  {
    CallsOfOrdered(Classified(records, parseJson, parse), a, b);
  }

  /** Every record that parses and validates is handed to its processor, whatever the other records did. */
  lemma ValidRecordsAreCalled(records: seq<string>, parseJson: JsonParser, parse: UrlParser, i: nat)
    requires i < |records| && JobFor(records[i], parseJson, parse).Some?
    ensures var j := JobFor(records[i], parseJson, parse).value;
            Call(i, j.0, j.1) in Calls(records, parseJson, parse)
  {
    CallsOfComplete(Classified(records, parseJson, parse), i);
  }

  /**
   * Exactly the valid actions are processed: a record is skipped iff its
   * body is not JSON or fails the action schema, because every valid
   * action's `site_type` has a processor.
   */
  lemma RecordProcessedIff(body: string, parseJson: JsonParser, parse: UrlParser)
    ensures JobFor(body, parseJson, parse).Some? <==>
            parseJson(body).Ok? && Accepts(parse, ScrapeActionSchema, parseJson(body).value)
    ensures parseJson(body).Ok? && JobFor(body, parseJson, parse).Some? ==>
            Member(parseJson(body).value, "site_type") == Some(JStr(SiteName(JobFor(body, parseJson, parse).value.0)))
  {
    if parseJson(body).Ok? && Accepts(parse, ScrapeActionSchema, parseJson(body).value) {
      ActionKeepsSiteType(parse, parseJson(body).value);
    }
  }
}
