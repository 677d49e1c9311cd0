/**
 * The job-intake Lambda of src/api.ts. A request body is first tried as a
 * batch (an array of scrape actions), then as a single action; every
 * accepted job is sent to the queue with a `job_id`, the one it carried
 * when that is a non-empty string, a fresh uuid otherwise. The batch's
 * sends all start before any is awaited, so each is attempted; here they
 * run in order and the reported failure is the first by position.
 */
module JobApi {
  import opened Wrappers
  import opened Text
  import opened Url
  import opened Json
  import opened Schemas
  import opened Lambda

  /** The `job_id` a job carries, when JavaScript treats it as true. */
  function SuppliedId(job: Json): (r: Option<string>)
    ensures r.Some? ==> r.value != "" && Member(job, "job_id") == Some(JStr(r.value))
  {
    var id := Member(job, "job_id");
    if id.Some? && id.value.JStr? && id.value.s != "" then Some(id.value.s) else None
  }

  /** How many of the jobs need a generated id, which is how many uuids they draw. */
  function FreshCount(jobs: seq<Json>): (n: nat)
    ensures n <= |jobs|
  {
    if jobs == [] then 0
    else FreshCount(jobs[..|jobs| - 1]) + (if SuppliedId(jobs[|jobs| - 1]).None? then 1 else 0)
  }

  /** `{ ...job, job_id: job.job_id || generated }`. */
  function WithId(job: Json, generated: string): Json {
    var id := if SuppliedId(job).Some? then SuppliedId(job).value else generated;
    if job.JObj? then JObj(Set(job.fields, "job_id", JStr(id))) else job
  }

  /** The batch with ids assigned in order; the uuids are drawn for the jobs that need one, in order. */
  function AssignIds(jobs: seq<Json>, uuid: UuidSource): (r: seq<Json>)
    ensures |r| == |jobs|
  {
    if jobs == [] then []
    else
      var n := |jobs| - 1;
      AssignIds(jobs[..n], uuid) + [WithId(jobs[n], uuid(FreshCount(jobs[..n])))]
  }

  /** The `job_id` of a job that has one as a string. */
  function JobIdOf(job: Json): string {
    var id := Member(job, "job_id");
    if id.Some? && id.value.JStr? then id.value.s else ""
  }

  function IdList(jobs: seq<Json>): (r: seq<Json>)
    ensures |r| == |jobs| && forall i :: 0 <= i < |jobs| ==> r[i] == JStr(JobIdOf(jobs[i]))
  {
    seq(|jobs|, i requires 0 <= i < |jobs| => JStr(JobIdOf(jobs[i])))
  }

  /** The messages of `msgs` whose send succeeds, the `k`-th send being the `k`-th message's. */
  function Delivered(msgs: seq<Json>, fail: SendFailures): (r: seq<Json>)
    ensures |r| <= |msgs|
  {
    if msgs == [] then []
    else
      var n := |msgs| - 1;
      Delivered(msgs[..n], fail) + (if fail(n).None? then [msgs[n]] else [])
  }

  /** The failure of the first of the first `n` sends that fails. */
  function FirstFailure(n: nat, fail: SendFailures): (r: Option<string>)
    ensures r.None? <==> forall k :: 0 <= k < n ==> fail(k).None?
  {
    if n == 0 then None
    else if FirstFailure(n - 1, fail).Some? then FirstFailure(n - 1, fail)
    else fail(n - 1)
  }

  /** What one invocation answers and what it leaves on the queue. */
  datatype Handled = Handled(response: Response, queued: seq<Json>)

  function Reply(statusCode: int, body: Json): Response {
    Respond(statusCode, body, true)
  }

  function BatchReply(jobs: seq<Json>): Json {
    JObj([("message", JStr("Queued " + NatToString(|jobs|) + " jobs")), ("job_ids", JArr(IdList(jobs)))])
  }

  function QueuedReply(job: Json): Json {
    JObj([("message", JStr("Job queued")), ("job_id", JStr(JobIdOf(job))),
          ("site_type", Member(job, "site_type").GetOr(JNull))])
  }

  function Items(v: Json): seq<Json> {
    if v.JArr? then v.items else []
  }

  /** The handler's decision tree. */
  function Handle(event: Event, parseJson: JsonParser, parse: UrlParser, uuid: UuidSource, fail: SendFailures): Handled {
    if event.httpMethod == "OPTIONS" then Handled(Reply(200, JObj([])), [])
    else if !Truthy(event.body) then Handled(Reply(400, MessageBody("Request body is required")), [])
    else match parseJson(event.body.value)
      case Err(m) => Handled(Reply(500, InternalErrorBody(m)), [])
      case Ok(request) =>
        match SafeParse(parse, ScrapeBatchRequestSchema, request)
        case Ok(data) =>
          var jobs := AssignIds(Items(data), uuid);
          var queued := Delivered(jobs, fail);
          (match FirstFailure(|jobs|, fail)
           case Some(m) => Handled(Reply(500, InternalErrorBody(m)), queued)
           case None => Handled(Reply(200, BatchReply(jobs)), queued))
        case Err(_) =>
          match SafeParse(parse, ScrapeActionSchema, request)
          case Err(issues) => Handled(Reply(400, InvalidInputBody(issues)), [])
          case Ok(data) =>
            var job := WithId(data, uuid(0));
            if fail(0).Some? then Handled(Reply(500, InternalErrorBody(fail(0).value)), [])
            else Handled(Reply(200, QueuedReply(job)), [job])
  }

  /**
   * The batch's sends: every job is sent, the `k`-th with the `k`-th
   * outcome, and the error reported is the first failure's.
   */
  method SendAll(q: Queue, jobs: seq<Json>, fail: SendFailures) returns (firstError: Option<string>)
    modifies q
    ensures q.messages == old(q.messages) + Delivered(jobs, fail)
    ensures firstError == FirstFailure(|jobs|, fail)
  {
    firstError := None;
    var i := 0;
    while i < |jobs|
      invariant 0 <= i <= |jobs|
      invariant q.messages == old(q.messages) + Delivered(jobs[..i], fail)
      invariant firstError == FirstFailure(i, fail)
    {
      var e := q.Send(jobs[i], fail(i));
      assert jobs[..i + 1][..i] == jobs[..i];
      if firstError.None? {
        firstError := e;
      }
      i := i + 1;
    }
    assert jobs[..|jobs|] == jobs;
  }

  /** `handler`: the sends go to `q`, the response is returned. */
  method Handler(q: Queue, event: Event, parseJson: JsonParser, parse: UrlParser, uuid: UuidSource, fail: SendFailures)
    returns (response: Response)
    modifies q
    ensures response == Handle(event, parseJson, parse, uuid, fail).response
    ensures q.messages == old(q.messages) + Handle(event, parseJson, parse, uuid, fail).queued
  {
    if event.httpMethod == "OPTIONS" {
      return Reply(200, JObj([]));
    }
    if !Truthy(event.body) {
      return Reply(400, MessageBody("Request body is required"));
    }
    var parsedBody := parseJson(event.body.value);
    if parsedBody.Err? {
      return Reply(500, InternalErrorBody(parsedBody.error));
    }
    var request := parsedBody.value;
    var batchParsed := SafeParse(parse, ScrapeBatchRequestSchema, request);
    if batchParsed.Ok? {
      var jobs := AssignIds(Items(batchParsed.value), uuid);
      var firstError := SendAll(q, jobs, fail);
      if firstError.Some? {
        return Reply(500, InternalErrorBody(firstError.value));
      }
      return Reply(200, BatchReply(jobs));
    }
    var singleParsed := SafeParse(parse, ScrapeActionSchema, request);
    if singleParsed.Err? {
      return Reply(400, InvalidInputBody(singleParsed.error));
    }
    var job := WithId(singleParsed.value, uuid(0));
    var e := q.Send(job, fail(0));
    if e.Some? {
      return Reply(500, InternalErrorBody(e.value));
    }
    return Reply(200, QueuedReply(job));
  }

  // ---- properties of the decision tree ----

  /** Preflight requests are answered `200 {}` before the body is looked at. */
  lemma OptionsAnsweredFirst(body: Option<string>, parseJson: JsonParser, parse: UrlParser, uuid: UuidSource, fail: SendFailures)
    ensures Handle(Event("OPTIONS", body), parseJson, parse, uuid, fail) == Handled(Respond(200, JObj([]), true), [])
  {
  }

  /** Every answer carries the same three headers. */
  lemma AlwaysThreeHeaders(event: Event, parseJson: JsonParser, parse: UrlParser, uuid: UuidSource, fail: SendFailures)
    ensures Handle(event, parseJson, parse, uuid, fail).response.headers == [ContentType, AllowOrigin, AllowCredentials]
  {
  }

  /** A missing or empty body is rejected with 400 and nothing is queued. */
  lemma MissingBodyRejected(event: Event, parseJson: JsonParser, parse: UrlParser, uuid: UuidSource, fail: SendFailures)
    requires event.httpMethod != "OPTIONS" && !Truthy(event.body)
    ensures Handle(event, parseJson, parse, uuid, fail) == Handled(Respond(400, MessageBody("Request body is required"), true), [])
  {
  }

  /** A body that is not JSON is a 500 carrying the parser's message, and nothing is queued. */
  lemma UnparsableBodyIs500(event: Event, parseJson: JsonParser, parse: UrlParser, uuid: UuidSource, fail: SendFailures)
    requires event.httpMethod != "OPTIONS" && Truthy(event.body) && parseJson(event.body.value).Err?
    ensures Handle(event, parseJson, parse, uuid, fail).response.statusCode == 500
    ensures Handle(event, parseJson, parse, uuid, fail).response.body == InternalErrorBody(parseJson(event.body.value).error)
    ensures Handle(event, parseJson, parse, uuid, fail).queued == []
  {
  }

  /** Each job keeps a truthy `job_id` and otherwise gets the next uuid. */
  lemma {:induction false} AssignedId(jobs: seq<Json>, uuid: UuidSource, i: nat)
    requires i < |jobs| && jobs[i].JObj?
    ensures JobIdOf(AssignIds(jobs, uuid)[i]) ==
      if SuppliedId(jobs[i]).Some? then SuppliedId(jobs[i]).value else uuid(FreshCount(jobs[..i]))
    ensures AssignIds(jobs, uuid)[i].JObj?
  {
    var n := |jobs| - 1;
    var init := AssignIds(jobs[..n], uuid);
    var last := WithId(jobs[n], uuid(FreshCount(jobs[..n])));
    assert AssignIds(jobs, uuid) == init + [last];
    if i < n {
      AssignedId(jobs[..n], uuid, i);
      assert jobs[..n][i] == jobs[i];
      assert jobs[..n][..i] == jobs[..i];
      assert AssignIds(jobs, uuid)[i] == init[i];
    } else {
      assert jobs[..i] == jobs[..n];
      var id := if SuppliedId(jobs[i]).Some? then SuppliedId(jobs[i]).value else uuid(FreshCount(jobs[..n]));
      assert last == JObj(Set(jobs[i].fields, "job_id", JStr(id)));
      SetThenGet(jobs[i].fields, "job_id", JStr(id), "job_id");
      assert AssignIds(jobs, uuid)[i] == last;
    }
  }

  /** The uuid counter only grows along the batch: job `j` has drawn at least as many as job `i < j`, plus one for each needy job between. */
  lemma {:induction false} FreshCountGrows(jobs: seq<Json>, i: nat, j: nat)
    requires i < j <= |jobs|
    ensures FreshCount(jobs[..j]) >= FreshCount(jobs[..i]) + (if SuppliedId(jobs[i]).None? then 1 else 0)
    decreases j - i
  {
    assert jobs[..j][..j - 1] == jobs[..j - 1];
    if j - 1 > i {
      FreshCountGrows(jobs, i, j - 1);
    } else {
      assert jobs[..j - 1] == jobs[..i];
    }
  }

  /** With a generator that never repeats, no two jobs that needed an id share one. */
  lemma GeneratedIdsDistinct(jobs: seq<Json>, uuid: UuidSource, i: nat, j: nat)
    requires forall a: nat, b: nat :: a != b ==> uuid(a) != uuid(b)
    requires i < j < |jobs| && jobs[i].JObj? && jobs[j].JObj?
    requires SuppliedId(jobs[i]).None? && SuppliedId(jobs[j]).None?
    ensures JobIdOf(AssignIds(jobs, uuid)[i]) != JobIdOf(AssignIds(jobs, uuid)[j])
  {
    AssignedId(jobs, uuid, i);
    AssignedId(jobs, uuid, j);
    FreshCountGrows(jobs, i, j);
  }

  lemma {:induction false} DeliveredAll(msgs: seq<Json>, fail: SendFailures)
    requires forall k :: 0 <= k < |msgs| ==> fail(k).None?
    ensures Delivered(msgs, fail) == msgs
  {
    if msgs != [] {
      var n := |msgs| - 1;
      DeliveredAll(msgs[..n], fail);
      assert msgs[..n] + [msgs[n]] == msgs;
    }
  }

  /**
   * A valid batch whose sends all succeed queues every job, in order, and
   * answers 200 with one id per job, in the same order.
   */
  lemma BatchQueuesEveryJob(event: Event, parseJson: JsonParser, parse: UrlParser, uuid: UuidSource, fail: SendFailures)
    requires event.httpMethod != "OPTIONS" && Truthy(event.body) && parseJson(event.body.value).Ok?
    requires Accepts(parse, ScrapeBatchRequestSchema, parseJson(event.body.value).value)
    requires forall k :: 0 <= k < |parseJson(event.body.value).value.items| ==> fail(k).None?
    ensures var request := parseJson(event.body.value).value;
            var data := SafeParse(parse, ScrapeBatchRequestSchema, request).value;
            var h := Handle(event, parseJson, parse, uuid, fail);
            && h.response.statusCode == 200
            && h.queued == AssignIds(Items(data), uuid)
            && |h.queued| == |request.items|
            && h.response.body == BatchReply(h.queued)
  {
    var request := parseJson(event.body.value).value;
    BatchAcceptedIff(parse, request);
    var data := SafeParse(parse, ScrapeBatchRequestSchema, request).value;
    assert |Items(data)| == |request.items|;
    var jobs := AssignIds(Items(data), uuid);
    DeliveredAll(jobs, fail);
  }

  /** A body that is neither a valid batch nor a valid job gets the single-job issues and queues nothing. */
  lemma InvalidInputQueuesNothing(event: Event, parseJson: JsonParser, parse: UrlParser, uuid: UuidSource, fail: SendFailures)
    requires event.httpMethod != "OPTIONS" && Truthy(event.body) && parseJson(event.body.value).Ok?
    requires !Accepts(parse, ScrapeBatchRequestSchema, parseJson(event.body.value).value)
    requires !Accepts(parse, ScrapeActionSchema, parseJson(event.body.value).value)
    ensures var h := Handle(event, parseJson, parse, uuid, fail);
            && h.response == Respond(400, InvalidInputBody(Run(parse, ScrapeActionSchema, Some(parseJson(event.body.value).value)).issues), true)
            && h.queued == []
  {
  }

  /** A valid single job is never a batch, is queued once, and is answered with its id and site. */
  lemma SingleJobQueuedOnce(event: Event, parseJson: JsonParser, parse: UrlParser, uuid: UuidSource, fail: SendFailures)
    requires event.httpMethod != "OPTIONS" && Truthy(event.body) && parseJson(event.body.value).Ok?
    requires Accepts(parse, ScrapeActionSchema, parseJson(event.body.value).value)
    requires fail(0).None?
    ensures var request := parseJson(event.body.value).value;
            var job := WithId(SafeParse(parse, ScrapeActionSchema, request).value, uuid(0));
            var h := Handle(event, parseJson, parse, uuid, fail);
            && h.queued == [job]
            && h.response == Respond(200, QueuedReply(job), true)
  {
    var request := parseJson(event.body.value).value;
    ActionAcceptedIff(parse, request);
    BatchAcceptedIff(parse, request);
  }
}
