/**
 * The zod schemas that guard job intake, modelled as data and run by one
 * interpreter, `Run`, that follows zod 3's `safeParse`: it returns every
 * issue in the order zod reports them (object fields in shape order, array
 * elements in index order, string checks in declaration order) and the
 * parsed data, from which unknown object keys are stripped. Messages are
 * zod's default English ones unless the schema gives its own.
 */
module Schemas {
  import opened Wrappers
  import opened Text
  import opened Url
  import opened Json

  /** One step of an issue's path: an object key or an array index. */
  datatype PathSeg = Key(name: string) | Index(i: nat)

  datatype Issue = Issue(path: seq<PathSeg>, message: string)

  datatype StringCheck =
    | MinLength(n: nat)                                /* .min(n) */
    | UrlCheck(message: string)                        /* .url(message) */
    | StartsWithRefine(prefix: string, message: string) /* .refine(s => s.startsWith(prefix), message) */

  datatype Field = Field(name: string, schema: Schema)

  datatype Schema =
    | ZString(checks: seq<StringCheck>)
    | ZLiterals(values: seq<string>)  /* z.union of string literals */
    | ZEnum(values: seq<string>)
    | ZRecord                         /* z.record(z.any()) */
    | ZOptional(inner: Schema)
    | ZObject(shape: seq<Field>)
    | ZArray(element: Schema)

  /** What parsing one value gives: its issues and, where it could be read, its data. */
  datatype Outcome = Outcome(issues: seq<Issue>, data: Option<Json>)

  // ---- messages ----

  /** zod's `invalid_type` message; an absent value is reported as `Required`. */
  function TypeMessage(expected: string, v: Option<Json>): string {
    if v.None? then "Required" else "Expected " + expected + ", received " + ParsedType(v)
  }

  function MinLengthMessage(n: nat): string {
    "String must contain at least " + NatToString(n) + " character(s)"
  }

  /** The values of an enum as zod lists them: quoted and separated by ` | `. */
  function EnumList(values: seq<string>): string {
    Join(Quoted(values), " | ")
  }

  function Quoted(values: seq<string>): (r: seq<string>)
    ensures |r| == |values| && forall i :: 0 <= i < |values| ==> r[i] == "'" + values[i] + "'"
  {
    if values == [] then [] else ["'" + values[0] + "'"] + Quoted(values[1..])
  }

  function EnumMismatchMessage(values: seq<string>, received: string): string {
    "Invalid enum value. Expected " + EnumList(values) + ", received '" + received + "'"
  }

  const UnionMessage := "Invalid input"
  const DefaultUrlMessage := "Invalid url"

  // ---- the interpreter ----

  predicate CheckPasses(parse: UrlParser, c: StringCheck, s: string) {
    match c
    case MinLength(n) => |s| >= n
    case UrlCheck(_) => IsUrl(parse, s)
    case StartsWithRefine(prefix, _) => StartsWith(s, prefix)
  }

  function CheckMessage(c: StringCheck): string {
    match c
    case MinLength(n) => MinLengthMessage(n)
    case UrlCheck(m) => m
    case StartsWithRefine(_, m) => m
  }

  /** Every check runs, whether or not an earlier one failed; each failure is one issue. */
  function StringIssues(parse: UrlParser, checks: seq<StringCheck>, s: string): (r: seq<Issue>)
    ensures r == [] <==> forall i :: 0 <= i < |checks| ==> CheckPasses(parse, checks[i], s)
    ensures |r| <= |checks|
  {
    if checks == [] then []
    else (if CheckPasses(parse, checks[0], s) then [] else [Issue([], CheckMessage(checks[0]))])
         + StringIssues(parse, checks[1..], s)
  }

  /** Puts one path step in front of each issue of a nested value. */
  function Nest(seg: PathSeg, issues: seq<Issue>): (r: seq<Issue>)
    ensures |r| == |issues|
    ensures forall i :: 0 <= i < |issues| ==> r[i] == Issue([seg] + issues[i].path, issues[i].message)
  {
    seq(|issues|, i requires 0 <= i < |issues| => Issue([seg] + issues[i].path, issues[i].message))
  }

  /** `schema.safeParse` on a value that may be absent (`undefined`). */
  function Run(parse: UrlParser, s: Schema, v: Option<Json>): (o: Outcome)
    ensures o.issues == [] && v.Some? ==> o.data.Some?
    decreases s, 0
  {
    match s
    case ZOptional(inner) =>
      if v.None? then Outcome([], None) else Run(parse, inner, v)
    case ZString(checks) =>
      if v.Some? && v.value.JStr? then Outcome(StringIssues(parse, checks, v.value.s), v)
      else Outcome([Issue([], TypeMessage("string", v))], None)
    case ZLiterals(values) =>
      if v.Some? && v.value.JStr? && v.value.s in values then Outcome([], v)
      else Outcome([Issue([], UnionMessage)], None)
    case ZEnum(values) =>
      if v.Some? && v.value.JStr? then
        (if v.value.s in values then Outcome([], v)
         else Outcome([Issue([], EnumMismatchMessage(values, v.value.s))], None))
      else Outcome([Issue([], TypeMessage(EnumList(values), v))], None)
    case ZRecord =>
      if v.Some? && v.value.JObj? then Outcome([], v)
      else Outcome([Issue([], TypeMessage("object", v))], None)
    case ZObject(shape) =>
      if v.Some? && v.value.JObj? then RunShape(parse, shape, v.value.fields)
      else Outcome([Issue([], TypeMessage("object", v))], None)
    case ZArray(element) =>
      if v.Some? && v.value.JArr? then RunItems(parse, element, v.value.items)
      else Outcome([Issue([], TypeMessage("array", v))], None)
  }

  /** An object's fields, in shape order; keys outside the shape are dropped from the data. */
  function RunShape(parse: UrlParser, shape: seq<Field>, fields: seq<(string, Json)>): (o: Outcome)
    ensures o.data.Some? && o.data.value.JObj?
    decreases shape, 0
  {
    if shape == [] then Outcome([], Some(JObj([])))
    else
      var head := Run(parse, shape[0].schema, Get(fields, shape[0].name));
      var tail := RunShape(parse, shape[1..], fields);
      Outcome(Nest(Key(shape[0].name), head.issues) + tail.issues,
              Some(JObj((if head.data.Some? then [(shape[0].name, head.data.value)] else [])
                        + tail.data.value.fields)))
  }

  /** An array's elements, each under its index. */
  function RunItems(parse: UrlParser, element: Schema, items: seq<Json>): (o: Outcome)
    ensures o.data.Some? && o.data.value.JArr? && |o.data.value.items| == |items|
    decreases element, 1, |items|
  {
    if items == [] then Outcome([], Some(JArr([])))
    else
      var n := |items| - 1;
      var init := RunItems(parse, element, items[..n]);
      var last := Run(parse, element, Some(items[n]));
      Outcome(init.issues + Nest(Index(n), last.issues),
              Some(JArr(init.data.value.items + [last.data.GetOr(JNull)])))
  }

  /** The schema parses the value without an issue. */
  predicate Accepts(parse: UrlParser, s: Schema, v: Json) {
    Run(parse, s, Some(v)).issues == []
  }

  /** `schema.safeParse(v)`: the parsed data, or the non-empty list of issues. */
  function SafeParse(parse: UrlParser, s: Schema, v: Json): (r: Result<Json, seq<Issue>>)
    ensures r.Ok? <==> Accepts(parse, s, v)
    ensures r.Err? ==> r.error != [] && r.error == Run(parse, s, Some(v)).issues
  {
    var o := Run(parse, s, Some(v));
    if o.issues == [] then Ok(o.data.value) else Err(o.issues)
  }

  // ---- general facts about the interpreter ----

  /** One field of an object's shape parses without an issue. */
  predicate FieldOk(parse: UrlParser, fld: Field, fields: seq<(string, Json)>) {
    Run(parse, fld.schema, Get(fields, fld.name)).issues == []
  }

  /** An object is accepted exactly when each of its shape's fields is. */
  lemma {:induction false} ShapeAcceptsIff(parse: UrlParser, shape: seq<Field>, fields: seq<(string, Json)>)
    ensures RunShape(parse, shape, fields).issues == [] <==>
      forall i :: 0 <= i < |shape| ==> FieldOk(parse, shape[i], fields)
  {
    if shape != [] {
      ShapeAcceptsIff(parse, shape[1..], fields);
      assert forall i :: 1 <= i < |shape| ==> shape[i] == shape[1..][i - 1];
    }
  }

  /** An array is accepted exactly when each of its elements is. */
  lemma {:induction false} ItemsAcceptsIff(parse: UrlParser, element: Schema, items: seq<Json>)
    ensures RunItems(parse, element, items).issues == [] <==>
      forall i :: 0 <= i < |items| ==> Accepts(parse, element, items[i])
  {
    if items != [] {
      var n := |items| - 1;
      ItemsAcceptsIff(parse, element, items[..n]);
      assert forall i :: 0 <= i < n ==> items[..n][i] == items[i];
    }
  }

  /** An array's data keeps each accepted element's own data, in place. */
  lemma {:induction false} ItemsData(parse: UrlParser, element: Schema, items: seq<Json>, i: nat)
    requires i < |items| && RunItems(parse, element, items).issues == []
    ensures Run(parse, element, Some(items[i])).data.Some?
    ensures RunItems(parse, element, items).data.value.items[i] == Run(parse, element, Some(items[i])).data.value
  {
    var n := |items| - 1;
    ItemsAcceptsIff(parse, element, items);
    if i < n {
      ItemsAcceptsIff(parse, element, items[..n]);
      ItemsData(parse, element, items[..n], i);
    }
  }

  /** The data of an object schema has no key outside its shape. */
  lemma {:induction false} ShapeDataOmits(parse: UrlParser, shape: seq<Field>, fields: seq<(string, Json)>, key: string)
    requires forall j :: 0 <= j < |shape| ==> shape[j].name != key
    ensures !HasKey(RunShape(parse, shape, fields).data.value.fields, key)
    decreases |shape|
  {
    if shape != [] {
      ShapeDataOmits(parse, shape[1..], fields, key);
    }
  }

  /** The data of an object schema reads its first field as that field's schema parsed it. */
  lemma ShapeFirstData(parse: UrlParser, shape: seq<Field>, fields: seq<(string, Json)>)
    requires shape != []
    requires forall j :: 1 <= j < |shape| ==> shape[j].name != shape[0].name
    ensures Get(RunShape(parse, shape, fields).data.value.fields, shape[0].name) ==
            Run(parse, shape[0].schema, Get(fields, shape[0].name)).data
  {
    var key := shape[0].name;
    var head := Run(parse, shape[0].schema, Get(fields, key));
    var tail := RunShape(parse, shape[1..], fields);
    ShapeDataOmits(parse, shape[1..], fields, key);
    var first := if head.data.Some? then [(key, head.data.value)] else [];
    GetAppend(first, tail.data.value.fields, key);
  }

  /** The first field and the rest of the shape decide between them whether the object is accepted. */
  lemma ShapeAcceptsCons(parse: UrlParser, shape: seq<Field>, fields: seq<(string, Json)>)
    requires shape != []
    ensures RunShape(parse, shape, fields).issues == [] <==>
      FieldOk(parse, shape[0], fields) && RunShape(parse, shape[1..], fields).issues == []
  {
  }

  lemma Shape1Iff(parse: UrlParser, a: Field, f: seq<(string, Json)>)
    ensures RunShape(parse, [a], f).issues == [] <==> FieldOk(parse, a, f)
  {
    ShapeAcceptsCons(parse, [a], f);
    assert [a][1..] == [];
  }

  lemma Shape2Iff(parse: UrlParser, a: Field, b: Field, f: seq<(string, Json)>)
    ensures RunShape(parse, [a, b], f).issues == [] <==> FieldOk(parse, a, f) && FieldOk(parse, b, f)
  {
    ShapeAcceptsCons(parse, [a, b], f);
    assert [a, b][1..] == [b];
    Shape1Iff(parse, b, f);
  }

  lemma Shape4Iff(parse: UrlParser, a: Field, b: Field, c: Field, d: Field, f: seq<(string, Json)>)
    ensures RunShape(parse, [a, b, c, d], f).issues == [] <==>
      FieldOk(parse, a, f) && FieldOk(parse, b, f) && FieldOk(parse, c, f) && FieldOk(parse, d, f)
  {
    ShapeAcceptsCons(parse, [a, b, c, d], f);
    assert [a, b, c, d][1..] == [b, c, d];
    ShapeAcceptsCons(parse, [b, c, d], f);
    assert [b, c, d][1..] == [c, d];
    Shape2Iff(parse, c, d, f);
  }

  lemma Shape5Iff(parse: UrlParser, a: Field, b: Field, c: Field, d: Field, e: Field, f: seq<(string, Json)>)
    ensures RunShape(parse, [a, b, c, d, e], f).issues == [] <==>
      FieldOk(parse, a, f) && FieldOk(parse, b, f) && FieldOk(parse, c, f) && FieldOk(parse, d, f) && FieldOk(parse, e, f)
  {
    ShapeAcceptsCons(parse, [a, b, c, d, e], f);
    assert [a, b, c, d, e][1..] == [b, c, d, e];
    Shape4Iff(parse, b, c, d, e, f);
  }

  lemma NestAppend(seg: PathSeg, a: seq<Issue>, b: seq<Issue>)
    ensures Nest(seg, a + b) == Nest(seg, a) + Nest(seg, b)
  {
  }

  lemma NestRoot(seg: PathSeg, m: string)
    ensures Nest(seg, [Issue([], m)]) == [Issue([seg], m)]
  {
    assert [seg] + [] == [seg];
  }

  // ---- field-level facts ----

  lemma NonEmptyFieldIff(parse: UrlParser, name: string, f: seq<(string, Json)>)
    ensures FieldOk(parse, Field(name, ZString([MinLength(1)])), f) <==> NonEmptyString(Get(f, name))
  {
    var v := Get(f, name);
    if v.Some? && v.value.JStr? {
      assert StringIssues(parse, [MinLength(1)], v.value.s) == [] <==> |v.value.s| >= 1;
    }
  }

  lemma UrlFieldIff(parse: UrlParser, name: string, message: string, f: seq<(string, Json)>)
    ensures FieldOk(parse, Field(name, ZString([UrlCheck(message)])), f) <==> UrlString(parse, Get(f, name))
  {
    var v := Get(f, name);
    if v.Some? && v.value.JStr? {
      assert StringIssues(parse, [UrlCheck(message)], v.value.s) == [] <==> IsUrl(parse, v.value.s);
    }
  }

  // ---- the schemas of src/types/job.types.ts ----

  const JobShape: seq<Field> := [
    Field("user_id", ZString([MinLength(1)])),
    Field("url", ZString([UrlCheck(DefaultUrlMessage)])),
    Field("job_id", ZOptional(ZString([]))),
    Field("metadata", ZOptional(ZRecord))
  ]

  const WikipediaJobSchema := ZObject(JobShape)
  const NewsJobSchema := ZObject(JobShape)

  const SiteTypes: seq<string> := ["wikipedia", "news"]

  const ActionShape: seq<Field> := [
    Field("site_type", ZLiterals(SiteTypes)),
    Field("user_id", ZString([MinLength(1)])),
    Field("url", ZString([UrlCheck(DefaultUrlMessage)])),
    Field("metadata", ZOptional(ZRecord)),
    Field("job_id", ZOptional(ZString([])))
  ]

  const ScrapeActionSchema := ZObject(ActionShape)

  const ScrapeBatchRequestSchema := ZArray(ScrapeActionSchema)

  /** A field that, when present, is a string. */
  predicate OptionalString(v: Option<Json>) {
    v.None? || v.value.JStr?
  }

  /** A field that, when present, is an object. */
  predicate OptionalObject(v: Option<Json>) {
    v.None? || v.value.JObj?
  }

  /** A present, non-empty string field. */
  predicate NonEmptyString(v: Option<Json>) {
    v.Some? && v.value.JStr? && |v.value.s| >= 1
  }

  /** A present string field that `new URL` accepts. */
  predicate UrlString(parse: UrlParser, v: Option<Json>) {
    v.Some? && v.value.JStr? && IsUrl(parse, v.value.s)
  }

  /** What both job schemas demand of an object's fields. */
  predicate ValidJobFields(parse: UrlParser, f: seq<(string, Json)>) {
    && NonEmptyString(Get(f, "user_id"))
    && UrlString(parse, Get(f, "url"))
    && OptionalString(Get(f, "job_id"))
    && OptionalObject(Get(f, "metadata"))
  }

  /** The two site schemas impose the same constraints (they are the same schema). */
  lemma JobSchemasIdentical(parse: UrlParser, v: Json)
    ensures WikipediaJobSchema == NewsJobSchema
    ensures SafeParse(parse, WikipediaJobSchema, v) == SafeParse(parse, NewsJobSchema, v)
  {
  }

  /** A job is accepted iff it is an object with a non-empty `user_id`, a parseable `url`, and well-typed optional fields. */
  lemma JobAcceptedIff(parse: UrlParser, v: Json)
    ensures Accepts(parse, WikipediaJobSchema, v) <==> v.JObj? && ValidJobFields(parse, v.fields)
  {
    if v.JObj? {
      var f := v.fields;
      Shape4Iff(parse, JobShape[0], JobShape[1], JobShape[2], JobShape[3], f);
      NonEmptyFieldIff(parse, "user_id", f);
      UrlFieldIff(parse, "url", DefaultUrlMessage, f);
    }
  }

  /** A parsed job is an object that keeps only the four job keys, so it has no `site_type` or `action`. */
  lemma JobDataOmits(parse: UrlParser, v: Json, key: string)
    requires Accepts(parse, WikipediaJobSchema, v)
    requires key != "user_id" && key != "url" && key != "job_id" && key != "metadata"
    ensures SafeParse(parse, WikipediaJobSchema, v).value.JObj?
    ensures !HasKey(SafeParse(parse, WikipediaJobSchema, v).value.fields, key)
  {
    JobAcceptedIff(parse, v);
    assert JobShape[0].name == "user_id" && JobShape[1].name == "url";
    assert JobShape[2].name == "job_id" && JobShape[3].name == "metadata";
    ShapeDataOmits(parse, JobShape, v.fields, key);
  }

  /** `job_id` and `metadata` may be left out of a job. */
  lemma OptionalFieldsMayBeAbsent(parse: UrlParser, userId: string, url: string)
    requires userId != [] && IsUrl(parse, url)
    ensures Accepts(parse, WikipediaJobSchema, JObj([("user_id", JStr(userId)), ("url", JStr(url))]))
  {
    var f := [("user_id", JStr(userId)), ("url", JStr(url))];
    assert Get(f, "user_id") == Some(JStr(userId));
    assert Get(f, "job_id") == None;
    assert Get(f, "metadata") == None;
    JobAcceptedIff(parse, JObj(f));
  }

  /** What the single-action schema demands: a known `site_type` plus the job fields. */
  predicate ValidActionFields(parse: UrlParser, f: seq<(string, Json)>) {
    && Get(f, "site_type").Some? && Get(f, "site_type").value.JStr?
    && Get(f, "site_type").value.s in SiteTypes
    && ValidJobFields(parse, f)
  }

  lemma ActionAcceptedIff(parse: UrlParser, v: Json)
    ensures Accepts(parse, ScrapeActionSchema, v) <==> v.JObj? && ValidActionFields(parse, v.fields)
  {
    if v.JObj? {
      var f := v.fields;
      Shape5Iff(parse, ActionShape[0], ActionShape[1], ActionShape[2], ActionShape[3], ActionShape[4], f);
      NonEmptyFieldIff(parse, "user_id", f);
      UrlFieldIff(parse, "url", DefaultUrlMessage, f);
    }
  }

  /** A parsed action keeps the request's `site_type`, which names one of the two sites. */
  lemma ActionKeepsSiteType(parse: UrlParser, v: Json)
    requires Accepts(parse, ScrapeActionSchema, v)
    ensures var data := SafeParse(parse, ScrapeActionSchema, v).value;
            && data.JObj? && v.JObj?
            && Get(data.fields, "site_type") == Get(v.fields, "site_type")
            && Get(data.fields, "site_type").Some? && Get(data.fields, "site_type").value.JStr?
            && Get(data.fields, "site_type").value.s in SiteTypes
  {
    assert v.JObj?;
    var f := v.fields;
    assert ActionShape[0] == Field("site_type", ZLiterals(SiteTypes));
    ShapeAcceptsCons(parse, ActionShape, f);
    assert Run(parse, ZLiterals(SiteTypes), Get(f, "site_type")).issues == [];
    assert ActionShape[1].name == "user_id" && ActionShape[2].name == "url";
    assert ActionShape[3].name == "metadata" && ActionShape[4].name == "job_id";
    ShapeFirstData(parse, ActionShape, f);
  }

  /** A batch is an array whose every element is a valid action; the empty array is a valid batch. */
  lemma BatchAcceptedIff(parse: UrlParser, v: Json)
    ensures Accepts(parse, ScrapeBatchRequestSchema, v) <==>
      v.JArr? && forall i :: 0 <= i < |v.items| ==> Accepts(parse, ScrapeActionSchema, v.items[i])
    ensures Accepts(parse, ScrapeBatchRequestSchema, JArr([]))
  {
    if v.JArr? {
      ItemsAcceptsIff(parse, ScrapeActionSchema, v.items);
    }
  }

  // ---- the schemas of wiki-scraper-backend/src/types/scrape.types.ts ----

  const BackendActionShape: seq<Field> := [
    Field("action", ZEnum(SiteTypes)),
    Field("payload", ZRecord)
  ]

  const BackendActionSchema := ZObject(BackendActionShape)

  const BackendBatchSchema := ZObject([Field("jobs", ZArray(BackendActionSchema))])

  /** An `action` that is one of the site names. */
  predicate KnownAction(v: Option<Json>) {
    v.Some? && v.value.JStr? && v.value.s in SiteTypes
  }

  /** A backend action names a known site and carries any object as payload. */
  lemma BackendActionAcceptedIff(parse: UrlParser, v: Json)
    ensures Accepts(parse, BackendActionSchema, v) <==>
      v.JObj? && KnownAction(Get(v.fields, "action")) && OptionalObject(Get(v.fields, "payload"))
                && Get(v.fields, "payload").Some?
  {
    if v.JObj? {
      Shape2Iff(parse, BackendActionShape[0], BackendActionShape[1], v.fields);
    }
  }

  /** zod lists the two site names as `'wikipedia' | 'news'`. */
  lemma SiteEnumText()
    ensures EnumList(SiteTypes) == "'wikipedia' | 'news'"
  {
    var q := Quoted(SiteTypes);
    assert q[0] == "'wikipedia'" by {
      assert q[0] == "'" + "wikipedia" + "'";
    }
    assert q[1] == "'news'" by {
      assert q[1] == "'" + "news" + "'";
    }
    assert q[1..] == ["'news'"];
    assert Join(q, " | ") == q[0] + " | " + Join(q[1..], " | ");
  }

  /** An action outside the enum is reported with zod's enum message. */
  lemma UnknownActionIssue(parse: UrlParser, f: seq<(string, Json)>, action: string)
    requires Get(f, "action") == Some(JStr(action)) && action !in SiteTypes
    ensures Issue([Key("action")], EnumMismatchMessage(SiteTypes, action)) in Run(parse, BackendActionSchema, Some(JObj(f))).issues
    ensures EnumList(SiteTypes) == "'wikipedia' | 'news'"
  {
    SiteEnumText();
    var head := Run(parse, ZEnum(SiteTypes), Get(f, "action"));
    assert head.issues == [Issue([], EnumMismatchMessage(SiteTypes, action))];
    NestRoot(Key("action"), EnumMismatchMessage(SiteTypes, action));
    var sh := BackendActionShape;
    assert sh[0] == Field("action", ZEnum(SiteTypes));
    var o := RunShape(parse, sh, f);
    assert o.issues == Nest(Key("action"), head.issues) + RunShape(parse, sh[1..], f).issues;
    assert o.issues[0] == Issue([Key("action")], EnumMismatchMessage(SiteTypes, action));
  }

  /** A backend batch is an object whose `jobs` array holds only valid actions (possibly none). */
  lemma BackendBatchAcceptedIff(parse: UrlParser, v: Json)
    ensures Accepts(parse, BackendBatchSchema, v) <==>
      && v.JObj? && Get(v.fields, "jobs").Some? && Get(v.fields, "jobs").value.JArr?
      && forall i :: 0 <= i < |Get(v.fields, "jobs").value.items| ==>
           Accepts(parse, BackendActionSchema, Get(v.fields, "jobs").value.items[i])
  {
    if v.JObj? {
      var jobs := Get(v.fields, "jobs");
      Shape1Iff(parse, BackendBatchSchema.shape[0], v.fields);
      if jobs.Some? && jobs.value.JArr? {
        ItemsAcceptsIff(parse, BackendActionSchema, jobs.value.items);
      }
    }
  }

  /** A parsed backend action keeps the request's `action`, which names a site. */
  lemma BackendActionKeepsAction(parse: UrlParser, v: Json)
    requires Accepts(parse, BackendActionSchema, v)
    ensures var data := SafeParse(parse, BackendActionSchema, v).value;
            && data.JObj? && v.JObj?
            && Get(data.fields, "action") == Get(v.fields, "action")
            && KnownAction(Get(data.fields, "action"))
  {
    assert v.JObj?;
    var f := v.fields;
    assert BackendActionShape[0] == Field("action", ZEnum(SiteTypes));
    ShapeAcceptsCons(parse, BackendActionShape, f);
    assert Run(parse, ZEnum(SiteTypes), Get(f, "action")).issues == [];
    assert BackendActionShape[1].name == "payload";
    ShapeFirstData(parse, BackendActionShape, f);
  }

  /** The parsed batch's `jobs` are the request's jobs, each as the action schema parsed it. */
  lemma BackendBatchJobs(parse: UrlParser, v: Json, i: nat)
    requires Accepts(parse, BackendBatchSchema, v)
    ensures v.JObj? && Get(v.fields, "jobs").Some? && Get(v.fields, "jobs").value.JArr?
    ensures var data := SafeParse(parse, BackendBatchSchema, v).value;
            var raw := Get(v.fields, "jobs").value.items;
            && data.JObj? && Get(data.fields, "jobs").Some? && Get(data.fields, "jobs").value.JArr?
            && |Get(data.fields, "jobs").value.items| == |raw|
            && (i < |raw| ==> (&& Accepts(parse, BackendActionSchema, raw[i])
                               && Get(data.fields, "jobs").value.items[i] == SafeParse(parse, BackendActionSchema, raw[i]).value))
  {
    BackendBatchAcceptedIff(parse, v);
    var raw := Get(v.fields, "jobs").value.items;
    ShapeFirstData(parse, BackendBatchSchema.shape, v.fields);
    ItemsAcceptsIff(parse, BackendActionSchema, raw);
    if i < |raw| {
      ItemsData(parse, BackendActionSchema, raw, i);
    }
  }

  lemma EmptyBackendBatchAccepted(parse: UrlParser)
    ensures Accepts(parse, BackendBatchSchema, JObj([("jobs", JArr([]))]))
  {
    assert Get([("jobs", JArr([]))], "jobs") == Some(JArr([]));
    BackendBatchAcceptedIff(parse, JObj([("jobs", JArr([]))]));
  }

  // ---- the validator of wiki-scraper-backend/src/validations/index.ts ----

  const WikipediaPrefix := "https://en.wikipedia.org/wiki/"
  const InvalidUrlMessage := "Invalid URL format"
  const NotWikipediaMessage := "Only Wikipedia URLs are allowed"

  const UrlChecks: seq<StringCheck> := [UrlCheck(InvalidUrlMessage), StartsWithRefine(WikipediaPrefix, NotWikipediaMessage)]

  const ScrapeBodySchema := ZObject([Field("url", ZString(UrlChecks))])

  /** The request-level schema: only `body` is looked at; `query` and `params` are stripped. */
  const ScrapeValidationSchema := ZObject([Field("body", ScrapeBodySchema)])

  /**
   * The refinement runs even when the URL check failed, so a string that
   * is neither a URL nor a Wikipedia link gets both messages, in order.
   */
  lemma UrlIssues(parse: UrlParser, url: string)
    ensures StringIssues(parse, UrlChecks, url) ==
      (if IsUrl(parse, url) then [] else [Issue([], InvalidUrlMessage)])
      + (if StartsWith(url, WikipediaPrefix) then [] else [Issue([], NotWikipediaMessage)])
  {
    assert UrlChecks[1..][1..] == [];
  }

  /** A body is accepted iff its `url` is a URL that starts, case-sensitively, with the Wikipedia article prefix. */
  lemma ScrapeBodyAcceptedIff(parse: UrlParser, v: Json)
    ensures Accepts(parse, ScrapeBodySchema, v) <==>
      && v.JObj? && Get(v.fields, "url").Some? && Get(v.fields, "url").value.JStr?
      && IsUrl(parse, Get(v.fields, "url").value.s)
      && StartsWith(Get(v.fields, "url").value.s, WikipediaPrefix)
  {
    if v.JObj? {
      Shape1Iff(parse, ScrapeBodySchema.shape[0], v.fields);
      var u := Get(v.fields, "url");
      if u.Some? && u.value.JStr? {
        UrlIssues(parse, u.value.s);
      }
    }
  }

  /** The messages a body with a string `url` gets, each under the path `url`. */
  lemma ScrapeBodyMessages(parse: UrlParser, url: string)
    ensures Run(parse, ScrapeBodySchema, Some(JObj([("url", JStr(url))]))).issues ==
      (if IsUrl(parse, url) then [] else [Issue([Key("url")], InvalidUrlMessage)])
      + (if StartsWith(url, WikipediaPrefix) then [] else [Issue([Key("url")], NotWikipediaMessage)])
  {
    var f := [("url", JStr(url))];
    assert Get(f, "url") == Some(JStr(url));
    UrlIssues(parse, url);
    var a := if IsUrl(parse, url) then [] else [Issue([], InvalidUrlMessage)];
    var b := if StartsWith(url, WikipediaPrefix) then [] else [Issue([], NotWikipediaMessage)];
    NestAppend(Key("url"), a, b);
    NestRoot(Key("url"), InvalidUrlMessage);
    NestRoot(Key("url"), NotWikipediaMessage);
    var sh := ScrapeBodySchema.shape;
    assert sh == [Field("url", ZString(UrlChecks))] && sh[1..] == [];
    assert Run(parse, ZString(UrlChecks), Get(f, "url")).issues == a + b;
    assert RunShape(parse, sh, f).issues == Nest(Key("url"), a + b) + RunShape(parse, sh[1..], f).issues;
  }

  /** Only `body` decides the request-level outcome: its issues, nested under `body`. */
  lemma ValidationChecksOnlyBody(parse: UrlParser, body: Json, query: Json, params: Json)
    ensures Run(parse, ScrapeValidationSchema, Some(JObj([("body", body), ("query", query), ("params", params)]))).issues
         == Nest(Key("body"), Run(parse, ScrapeBodySchema, Some(body)).issues)
  {
    var f := [("body", body), ("query", query), ("params", params)];
    assert "params" != "body" && "query" != "body";
    assert f[..2] == [("body", body), ("query", query)] && f[..2][..1] == [("body", body)];
    assert Get(f, "body") == Get(f[..2], "body");
    assert Get(f[..2], "body") == Get(f[..2][..1], "body") == Some(body);
    var sh := ScrapeValidationSchema.shape;
    assert sh == [Field("body", ScrapeBodySchema)] && sh[1..] == [];
    assert RunShape(parse, sh, f).issues == Nest(Key("body"), Run(parse, ScrapeBodySchema, Some(body)).issues) + RunShape(parse, sh[1..], f).issues;
  }
}
