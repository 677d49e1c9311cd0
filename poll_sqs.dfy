/**
 * The queue-draining script of scripts/pollSqs.ts: it finds the queue URL
 * on the command line, loads the responses collected so far, and on every
 * poll takes at most one message, appends its JSON body to the collected
 * responses, writes them all back to the output file, and deletes the
 * message. A body that is not JSON is written to a bad-message file
 * instead. The SQS calls and the file system are inputs: a poll is given
 * what `receive` returned and whether each write succeeds, and the poller
 * records what was written and which deletes were attempted.
 */
module PollSqs {
  import opened Wrappers
  import opened Text
  import opened Json

  // ---- the command line ----

  /** `Array.prototype.indexOf`: the first position of `x`, or -1. */
  function IndexOf(s: seq<string>, x: string): (r: int)
    ensures -1 <= r < |s|
    ensures r == -1 <==> x !in s
    ensures r >= 0 ==> s[r] == x && forall j :: 0 <= j < r ==> s[j] != x
  {
    if s == [] then -1
    else if s[0] == x then 0
    else
      var k := IndexOf(s[1..], x);
      if k == -1 then -1 else k + 1
  }

  const QueueUrlFlag := "--queue-url"

  /** `getQueueUrl`: the argument right after the first `--queue-url`. */
  function GetQueueUrl(argv: seq<string>): Option<string> {
    var i := IndexOf(argv, QueueUrlFlag);
    if i > -1 && |argv| > i + 1 then Some(argv[i + 1]) else None
  }

  /** The script starts polling only with a URL that is not empty; otherwise it exits with status 1. */
  function StartUrl(argv: seq<string>): Option<string> {
    var url := GetQueueUrl(argv);
    if Truthy(url) then url else None
  }

  // ---- one message and one poll ----

  /** A received message: its `Body` and `ReceiptHandle`, either of which may be absent. */
  datatype Message = Message(body: Option<string>, receiptHandle: Option<string>)

  /** `JSON.parse(body!)` reads an absent body as the text `undefined`. */
  function ParsedText(body: Option<string>): string {
    if body.Some? then body.value else "undefined"
  }

  /** What goes into a bad-message file: `body || ''`. */
  function BadText(body: Option<string>): string {
    if body.Some? then body.value else ""
  }

  /**
   * What one poll does: the new `responseData`, and, in order of the
   * calls, the values written to the output file, the texts written to
   * bad-message files and the receipt handles of the deletes attempted.
   */
  datatype PollStep = PollStep(data: Json, written: seq<Json>, bad: seq<string>, deletes: seq<Option<string>>)

  /**
   * Whether a parsed body reaches the `push`: reading `parsed.job_id` for
   * the log throws on `null`, and `push` throws unless the collected
   * responses are an array.
   */
  predicate Appendable(data: Json, parsed: Result<Json, string>) {
    parsed.Ok? && !parsed.value.JNull? && data.JArr?
  }

  /**
   * `pollQueue` given what `receive` returned (`Ok([])` when there is no
   * `Messages` array), the parser, and whether the output file and the
   * bad-message file can be written. A failed output write is rethrown
   * after the push, so the message then also goes to a bad-message file;
   * a failed bad-message write escapes to the outer `catch` before the
   * delete.
   */
  function Poll(data: Json, receive: Result<seq<Message>, string>, parseJson: JsonParser,
                writeOk: bool, badWriteOk: bool): PollStep {
    if receive.Err? || receive.value == [] then PollStep(data, [], [], [])
    else
      var message := receive.value[0];
      var parsed := parseJson(ParsedText(message.body));
      var appended := Appendable(data, parsed);
      var data' := if appended then JArr(data.items + [parsed.value]) else data;
      var stored := appended && writeOk;
      PollStep(data',
               if stored then [data'] else [],
               if !stored && badWriteOk then [BadText(message.body)] else [],
               if stored || badWriteOk then [message.receiptHandle] else [])
  }

  /**
   * `loadExistingResponses` given what reading the output file gave: the
   * parsed contents, or an empty array when the read or the parse fails or
   * the contents are `null` (whose `length` the log line cannot read).
   */
  function Loaded(read: Result<string, string>, parseJson: JsonParser): Json {
    if read.Err? then JArr([])
    else match parseJson(read.value)
      case Err(_) => JArr([])
      case Ok(v) => if v.JNull? then JArr([]) else v
  }

  /** The region the SQS client uses when the configuration names none. */
  const DefaultRegion := "ap-south-1"

  class SqsPoller {
    const queueUrl: string
    const region: string
    var responseData: Json
    /** The values written to the output file, oldest first. */
    var written: seq<Json>
    /** The texts written to bad-message files, oldest first. */
    var badMessages: seq<string>
    /** The receipt handles of the delete calls made, oldest first. */
    var deletes: seq<Option<string>>

    constructor (url: string, configRegion: Option<string>)
      ensures queueUrl == url
      ensures region == (if Truthy(configRegion) then configRegion.value else DefaultRegion)
      ensures responseData == JArr([]) && written == [] && badMessages == [] && deletes == []
    {
      queueUrl := url;
      region := if Truthy(configRegion) then configRegion.value else DefaultRegion;
      responseData := JArr([]);
      written := [];
      badMessages := [];
      deletes := [];
    }

    method LoadExistingResponses(read: Result<string, string>, parseJson: JsonParser)
      modifies this
      ensures responseData == Loaded(read, parseJson)
      ensures written == old(written) && badMessages == old(badMessages) && deletes == old(deletes)
    {
      if read.Err? {
        responseData := JArr([]);
        return;
      }
      var parsed := parseJson(read.value);
      if parsed.Err? || parsed.value.JNull? {
        responseData := JArr([]);
        return;
      }
      responseData := parsed.value;
    }

    method PollQueue(receive: Result<seq<Message>, string>, parseJson: JsonParser, writeOk: bool, badWriteOk: bool)
      modifies this
      ensures var step := Poll(old(responseData), receive, parseJson, writeOk, badWriteOk);
              && responseData == step.data
              && written == old(written) + step.written
              && badMessages == old(badMessages) + step.bad
              && deletes == old(deletes) + step.deletes
    {
      if receive.Err? || receive.value == [] {
        return;
      }
      var message := receive.value[0];
      var parsed := parseJson(ParsedText(message.body));
      var stored := false;
      if parsed.Ok? && !parsed.value.JNull? && responseData.JArr? {
        responseData := JArr(responseData.items + [parsed.value]);
        if writeOk {
          written := written + [responseData];
          stored := true;
        }
      }
      if !stored {
        if !badWriteOk {
          return;
        }
        badMessages := badMessages + [BadText(message.body)];
      }
      deletes := deletes + [message.receiptHandle];
    }
  }

  // ---- properties ----

  /** The URL is the argument after the first `--queue-url`, when there is one. */
  lemma QueueUrlAfterFirstFlag(argv: seq<string>, i: nat)
    requires i + 1 < |argv| && argv[i] == QueueUrlFlag
    requires forall j :: 0 <= j < i ==> argv[j] != QueueUrlFlag
    ensures GetQueueUrl(argv) == Some(argv[i + 1])
  {
  }

  /** There is no URL exactly when the flag is absent or its first occurrence is the last argument. */
  lemma NoQueueUrlIff(argv: seq<string>)
    ensures GetQueueUrl(argv).None? <==> QueueUrlFlag !in argv || IndexOf(argv, QueueUrlFlag) == |argv| - 1
  {
  }

  /** Polling starts exactly when the flag is followed by a non-empty argument. */
  lemma StartsIff(argv: seq<string>)
    ensures StartUrl(argv).Some? <==> GetQueueUrl(argv).Some? && GetQueueUrl(argv).value != ""
    ensures StartUrl(argv).Some? ==> StartUrl(argv) == GetQueueUrl(argv)
  {
  }

  /** Only `Messages[0]` is handled: the rest of the batch changes nothing, and at most one delete is made. */
  lemma OnlyFirstMessage(data: Json, messages: seq<Message>, parseJson: JsonParser, writeOk: bool, badWriteOk: bool)
    requires messages != []
    ensures Poll(data, Ok(messages), parseJson, writeOk, badWriteOk) == Poll(data, Ok(messages[..1]), parseJson, writeOk, badWriteOk)
    ensures |Poll(data, Ok(messages), parseJson, writeOk, badWriteOk).deletes| <= 1
  {
  }

  /** A failed receive or an empty batch changes nothing and calls nothing. */
  lemma NothingReceived(data: Json, receive: Result<seq<Message>, string>, parseJson: JsonParser, writeOk: bool, badWriteOk: bool)
    requires receive.Err? || receive.value == []
    ensures Poll(data, receive, parseJson, writeOk, badWriteOk) == PollStep(data, [], [], [])
  {
  }

  /**
   * A body that parses to something other than `null` is appended at the
   * end of the collected responses, the whole array is written, and the
   * message is deleted.
   */
  lemma ParsedBodyAppended(items: seq<Json>, messages: seq<Message>, parseJson: JsonParser, v: Json, badWriteOk: bool)
    requires messages != [] && parseJson(ParsedText(messages[0].body)) == Ok(v) && !v.JNull?
    ensures var step := Poll(JArr(items), Ok(messages), parseJson, true, badWriteOk);
            && step.data == JArr(items + [v])
            && step.written == [step.data]
            && step.bad == []
            && step.deletes == [messages[0].receiptHandle]
  {
  }

  /**
   * A body that is not JSON leaves the collected responses as they were,
   * writes no output file, goes to a bad-message file, and is deleted
   * unless that file cannot be written.
   */
  lemma UnparsableBodyKeepsData(data: Json, messages: seq<Message>, parseJson: JsonParser, writeOk: bool, badWriteOk: bool)
    requires messages != [] && parseJson(ParsedText(messages[0].body)).Err?
    ensures var step := Poll(data, Ok(messages), parseJson, writeOk, badWriteOk);
            && step.data == data
            && step.written == []
            && step.bad == (if badWriteOk then [BadText(messages[0].body)] else [])
            && step.deletes == (if badWriteOk then [messages[0].receiptHandle] else [])
  {
  }

  /** An absent body is parsed as the text `undefined` and written to its bad-message file as the empty text. */
  lemma AbsentBodyIsUndefined(data: Json, handle: Option<string>, parseJson: JsonParser, writeOk: bool)
    requires parseJson("undefined").Err?
    ensures Poll(data, Ok([Message(None, handle)]), parseJson, writeOk, true) == PollStep(data, [], [""], [handle])
  {
  }

  /**
   * When the output file cannot be written the body stays appended in
   * memory, but the message also goes to a bad-message file.
   */
  lemma WriteFailureKeepsAppend(items: seq<Json>, messages: seq<Message>, parseJson: JsonParser, v: Json)
    requires messages != [] && parseJson(ParsedText(messages[0].body)) == Ok(v) && !v.JNull?
    ensures Poll(JArr(items), Ok(messages), parseJson, false, true) ==
            PollStep(JArr(items + [v]), [], [BadText(messages[0].body)], [messages[0].receiptHandle])
  {
  }

  /** The delete is attempted iff a message was received and its handling did not end in a failed bad-message write. */
  lemma DeleteAttemptedIff(data: Json, receive: Result<seq<Message>, string>, parseJson: JsonParser, writeOk: bool, badWriteOk: bool)
    ensures var step := Poll(data, receive, parseJson, writeOk, badWriteOk);
            step.deletes != [] <==>
              && receive.Ok? && receive.value != []
              && (badWriteOk || (Appendable(data, parseJson(ParsedText(receive.value[0].body))) && writeOk))
    ensures var step := Poll(data, receive, parseJson, writeOk, badWriteOk);
            step.deletes != [] ==> step.deletes == [receive.value[0].receiptHandle]
  {
  }

  /**
   * A poll only ever appends: the collected responses keep their old
   * entries as a prefix and grow by at most one, and whatever is written
   * to the output file is the whole new array.
   */
  lemma PollOnlyAppends(items: seq<Json>, receive: Result<seq<Message>, string>, parseJson: JsonParser, writeOk: bool, badWriteOk: bool)
    ensures var step := Poll(JArr(items), receive, parseJson, writeOk, badWriteOk);
            && step.data.JArr?
            && |items| <= |step.data.items| <= |items| + 1
            && step.data.items[..|items|] == items
            && (step.written == [] || step.written == [step.data])
            && (step.written == [] || step.bad == [])
  {
    var step := Poll(JArr(items), receive, parseJson, writeOk, badWriteOk);
    if |step.data.items| == |items| + 1 {
      assert step.data.items[..|items|] == items;
    }
  }

  /** Collected responses that are not an array (the file held, say, an object) take no body: `push` throws. */
  lemma NonArrayTakesNothing(data: Json, receive: Result<seq<Message>, string>, parseJson: JsonParser, writeOk: bool, badWriteOk: bool)
    requires !data.JArr?
    ensures Poll(data, receive, parseJson, writeOk, badWriteOk).data == data
    ensures Poll(data, receive, parseJson, writeOk, badWriteOk).written == []
  {
  }

  /** Loading gives an empty array after any failure, and otherwise exactly the parsed file contents. */
  lemma LoadedIff(read: Result<string, string>, parseJson: JsonParser)
    ensures Loaded(read, parseJson) != JArr([]) ==>
            read.Ok? && parseJson(read.value).Ok? && Loaded(read, parseJson) == parseJson(read.value).value
    ensures read.Err? || parseJson(read.value).Err? || parseJson(read.value) == Ok(JNull) ==> Loaded(read, parseJson) == JArr([])
    ensures read.Ok? && parseJson(read.value).Ok? && !parseJson(read.value).value.JNull? ==>
            Loaded(read, parseJson) == parseJson(read.value).value
  {
  }
}
