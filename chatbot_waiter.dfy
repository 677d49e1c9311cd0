/**
 * The streaming-response waiter: picks a selector profile for the page's
 * chat platform, waits for a message container, then polls the page until
 * the streamed answer looks finished or the time budget is spent.
 *
 * Everything the page reports (its URL, DOM fingerprints, whether a
 * selector resolves, what each poll observes) and every reading of the
 * clock is an input. A poll tick is a timestamp and what `page.evaluate`
 * returned at that time (or the message it threw).
 */
module ChatBotWaiter {
  import opened Wrappers
  import opened Text
  import opened Url

  // ---------------------------------------------------------------------
  // Platforms and their selector profiles
  // ---------------------------------------------------------------------

  datatype Platform = ChatGpt | Perplexity | Claude | Bing | Bard | Generic

  /** The name under which a platform is reported in the result's metadata. */
  function PlatformName(p: Platform): string {
    match p
    case ChatGpt => "chatgpt"
    case Perplexity => "perplexity"
    case Claude => "claude"
    case Bing => "bing"
    case Bard => "bard"
    case Generic => "generic"
  }

  datatype AdditionalSelectors = AdditionalSelectors(
    loadingSpinner: Option<string>,
    sendButton: Option<string>,
    inputField: Option<string>)

  const NoAdditionalSelectors := AdditionalSelectors(None, None, None)

  /**
   * A selector profile. `loadingSpinner`, `sendButton` and `inputField` are
   * the keys some built-in profiles carry at top level; the waiter only
   * reads the ones nested under `additionalSelectors`.
   */
  datatype Profile = Profile(
    messageContainer: string,
    typingIndicator: string,
    stopButton: string,
    streamingClass: string,
    completedClass: string,
    loadingSpinner: Option<string>,
    sendButton: Option<string>,
    inputField: Option<string>,
    additionalSelectors: Option<AdditionalSelectors>)

  const ChatGptProfile := Profile(
    "[data-message-author-role=\"assistant\"] .markdown, [data-message-author-role=\"assistant\"] div[class*=\"prose\"], .group\\/conversation-turn .whitespace-pre-wrap",
    ".result-streaming, [data-testid*=\"loading\"], .animate-pulse, .text-token-text-secondary",
    "[data-testid=\"stop-button\"], button[aria-label*=\"Stop\"], .stop-generating",
    "result-streaming",
    "group",
    Some(".animate-spin, [data-testid=\"loading-indicator\"]"),
    Some("[data-testid=\"send-button\"], button[aria-label*=\"Send\"]"),
    Some("#prompt-textarea, [data-testid=\"prompt-textarea\"]"),
    None)

  const PerplexityProfile := Profile(
    ".prose, [data-testid=\"answer\"], .answer-content, .markdown-content",
    ".typing-animation, .loading-dots, .animate-pulse, [aria-label*=\"generating\"]",
    "[aria-label*=\"Stop\"], .stop-button, button[title*=\"Stop\"]",
    "streaming",
    "completed",
    Some(".loading-spinner, .animate-spin"),
    Some("button[type=\"submit\"], [aria-label*=\"Submit\"]"),
    Some("textarea, [contenteditable=\"true\"]"),
    None)

  const ClaudeProfile := Profile(
    "[data-is-streaming=\"false\"] .font-claude-message, .message-content, [role=\"assistant\"] .prose",
    "[data-is-streaming=\"true\"], .thinking-indicator, .loading-ellipsis",
    "[aria-label*=\"Stop\"], .stop-generation",
    "streaming",
    "message-complete",
    Some(".loading, .spinner"),
    Some("button[aria-label*=\"Send\"], [data-testid=\"send-button\"]"),
    Some("div[contenteditable=\"true\"], textarea[placeholder*=\"message\"]"),
    None)

  const BingProfile := Profile(
    ".ac-textBlock, .response-message-group .ac-container",
    ".typing-indicator, .loading-message, .ac-adaptiveCard .loading",
    ".stop-responding-button, [aria-label*=\"Stop\"]",
    "streaming-response",
    "response-complete",
    None, None, None, None)

  const BardProfile := Profile(
    ".model-response-text, .response-container .rich-text",
    ".typing-indicator, .loading-animation",
    "[aria-label*=\"Stop\"], .stop-generating",
    "generating",
    "response-finished",
    None, None, None, None)

  /** The fallback bundle used when the platform has no entry of its own. */
  const GenericProfile := Profile(
    "[role=\"assistant\"], .message, .response, .bot-message, .ai-response",
    ".typing, .loading, .generating, .thinking, .animate-pulse, [aria-busy=\"true\"]",
    ".stop, [aria-label*=\"stop\" i], [title*=\"stop\" i], .stop-button",
    "streaming",
    "completed",
    None, None, None, None)

  /** `getPlatformConfig`: the platform's built-in profile, or the generic bundle. */
  function GetPlatformConfig(p: Platform): (c: Profile)
    ensures p == Generic <==> c == GenericProfile
    ensures c.additionalSelectors.None?
  {
    match p
    case ChatGpt => ChatGptProfile
    case Perplexity => PerplexityProfile
    case Claude => ClaudeProfile
    case Bing => BingProfile
    case Bard => BardProfile
    case Generic => GenericProfile
  }

  // ---------------------------------------------------------------------
  // Platform detection
  // ---------------------------------------------------------------------

  /** Result of the in-page fingerprint probe, one flag per platform. */
  datatype DomIndicators = DomIndicators(chatgpt: bool, perplexity: bool, claude: bool, bing: bool, bard: bool)

  /** The URL-based checks of `detectPlatform`, on the lower-cased host name. */
  function HostPlatform(hostname: string): Option<Platform> {
    if Contains(hostname, "openai.com") || Contains(hostname, "chatgpt.com") then Some(ChatGpt)
    else if Contains(hostname, "perplexity.ai") then Some(Perplexity)
    else if Contains(hostname, "claude.ai") || Contains(hostname, "anthropic.com") then Some(Claude)
    else if Contains(hostname, "bing.com") || Contains(hostname, "copilot.microsoft.com") then Some(Bing)
    else if Contains(hostname, "bard.google.com") || Contains(hostname, "gemini.google.com") then Some(Bard)
    else None
  }

  /** The DOM-based fallback of `detectPlatform`: the first fingerprint found. */
  function DomPlatform(d: DomIndicators): Option<Platform> {
    if d.chatgpt then Some(ChatGpt)
    else if d.perplexity then Some(Perplexity)
    else if d.claude then Some(Claude)
    else if d.bing then Some(Bing)
    else if d.bard then Some(Bard)
    else None
  }

  /**
   * `detectPlatform`. `pageUrl` is what `page.url()` returned (`None`: it
   * threw); `dom` is what the fingerprint probe returned (`None`: it threw).
   * The probe runs only when no host check matched.
   */
  function DetectPlatform(pageUrl: Option<string>, parse: UrlParser, dom: Option<DomIndicators>): Platform {
    if pageUrl.None? || parse(pageUrl.value).None? then Generic
    else
      match HostPlatform(ToLower(parse(pageUrl.value).value.hostname))
      case Some(p) => p
      case None => if dom.None? then Generic else DomPlatform(dom.value).GetOr(Generic)
  }

  /** An independent statement of the detection order: rules tried first to last. */
  datatype HostRule = HostRule(platform: Platform, needles: seq<string>)

  const HostRules: seq<HostRule> := [
    HostRule(ChatGpt, ["openai.com", "chatgpt.com"]),
    HostRule(Perplexity, ["perplexity.ai"]),
    HostRule(Claude, ["claude.ai", "anthropic.com"]),
    HostRule(Bing, ["bing.com", "copilot.microsoft.com"]),
    HostRule(Bard, ["bard.google.com", "gemini.google.com"])
  ]

  predicate Matches(hostname: string, rule: HostRule) {
    exists k :: 0 <= k < |rule.needles| && Contains(hostname, rule.needles[k])
  }

  /** The platform of the first rule one of whose needles occurs in the host. */
  function FirstHostMatch(hostname: string, rules: seq<HostRule>): (r: Option<Platform>)
    ensures r.None? <==> forall i :: 0 <= i < |rules| ==> !Matches(hostname, rules[i])
    ensures r.Some? ==> exists i :: 0 <= i < |rules| && Matches(hostname, rules[i]) && rules[i].platform == r.value
                                    && forall j :: 0 <= j < i ==> !Matches(hostname, rules[j])
  {
    if rules == [] then None
    else if Matches(hostname, rules[0]) then Some(rules[0].platform)
    else
      var r := FirstHostMatch(hostname, rules[1..]);
      assert forall i :: 1 <= i < |rules| ==> rules[i] == rules[1..][i - 1];
      r
  }

  /** The DOM fingerprints in the order they are consulted. */
  function DomOrder(d: DomIndicators): seq<(Platform, bool)> {
    [(ChatGpt, d.chatgpt), (Perplexity, d.perplexity), (Claude, d.claude), (Bing, d.bing), (Bard, d.bard)]
  }

  /** The first flagged platform of a list, if any. */
  function FirstFlagged(flags: seq<(Platform, bool)>): (r: Option<Platform>)
    ensures r.None? <==> forall i :: 0 <= i < |flags| ==> !flags[i].1
    ensures r.Some? ==> exists i :: 0 <= i < |flags| && flags[i] == (r.value, true)
                                    && forall j :: 0 <= j < i ==> !flags[j].1
  {
    if flags == [] then None
    else if flags[0].1 then Some(flags[0].0)
    else
      var r := FirstFlagged(flags[1..]);
      assert forall i :: 1 <= i < |flags| ==> flags[i] == flags[1..][i - 1];
      r
  }

  /**
   * Detection follows the rule lists: the first host rule that matches wins;
   * only when none does are the DOM fingerprints consulted, in the same
   * platform order; when nothing matches, or the URL or the probe fails,
   * the platform is generic.
   */
  lemma DetectPlatformOrder(pageUrl: Option<string>, parse: UrlParser, dom: Option<DomIndicators>)
    ensures pageUrl.None? || parse(pageUrl.value).None? ==> DetectPlatform(pageUrl, parse, dom) == Generic
    ensures pageUrl.Some? && parse(pageUrl.value).Some? ==>
      var hostname := ToLower(parse(pageUrl.value).value.hostname);
      DetectPlatform(pageUrl, parse, dom) ==
        match FirstHostMatch(hostname, HostRules)
        case Some(p) => p
        case None => if dom.None? then Generic else FirstFlagged(DomOrder(dom.value)).GetOr(Generic)
  {
    if pageUrl.Some? && parse(pageUrl.value).Some? {
      HostChecksFollowRules(ToLower(parse(pageUrl.value).value.hostname));
      if dom.Some? {
        DomChecksFollowOrder(dom.value);
      }
    }
  }

  lemma HostChecksFollowRules(h: string)
    ensures HostPlatform(h) == FirstHostMatch(h, HostRules)
  {
    var r0 := HostRules;
    var r1, r2, r3, r4 := r0[1..], r0[2..], r0[3..], r0[4..];
    assert r1[1..] == r2 && r2[1..] == r3 && r3[1..] == r4 && r4[1..] == [];
    var bard := FirstHostMatch(h, r4);
    HostMatchUnfold(h, r4);
    MatchesTwo(h, r4[0]);
    assert bard == if Contains(h, "bard.google.com") || Contains(h, "gemini.google.com") then Some(Bard) else None;
    var bing := FirstHostMatch(h, r3);
    HostMatchUnfold(h, r3);
    MatchesTwo(h, r3[0]);
    assert bing == if Contains(h, "bing.com") || Contains(h, "copilot.microsoft.com") then Some(Bing) else bard;
    var claude := FirstHostMatch(h, r2);
    HostMatchUnfold(h, r2);
    MatchesTwo(h, r2[0]);
    assert claude == if Contains(h, "claude.ai") || Contains(h, "anthropic.com") then Some(Claude) else bing;
    var perplexity := FirstHostMatch(h, r1);
    HostMatchUnfold(h, r1);
    MatchesOne(h, r1[0]);
    assert perplexity == if Contains(h, "perplexity.ai") then Some(Perplexity) else claude;
    HostMatchUnfold(h, r0);
    MatchesTwo(h, r0[0]);
  }

  lemma DomChecksFollowOrder(d: DomIndicators)
    ensures DomPlatform(d) == FirstFlagged(DomOrder(d))
  {
    var fs := DomOrder(d);
    FlaggedUnfold(fs);
    FlaggedUnfold(fs[1..]);
    FlaggedUnfold(fs[1..][1..]);
    FlaggedUnfold(fs[1..][1..][1..]);
    FlaggedUnfold(fs[1..][1..][1..][1..]);
    assert fs[1..][1..][1..][1..][1..] == [];
  }

  lemma FlaggedUnfold(fs: seq<(Platform, bool)>)
    requires fs != []
    ensures FirstFlagged(fs) == if fs[0].1 then Some(fs[0].0) else FirstFlagged(fs[1..])
  {
  }

  lemma MatchesOne(hostname: string, rule: HostRule)
    requires |rule.needles| == 1
    ensures Matches(hostname, rule) <==> Contains(hostname, rule.needles[0])
  {
  }

  lemma MatchesTwo(hostname: string, rule: HostRule)
    requires |rule.needles| == 2
    ensures Matches(hostname, rule) <==> Contains(hostname, rule.needles[0]) || Contains(hostname, rule.needles[1])
  {
  }

  lemma HostMatchUnfold(h: string, rs: seq<HostRule>)
    requires rs != []
    ensures FirstHostMatch(h, rs) == if Matches(h, rs[0]) then Some(rs[0].platform) else FirstHostMatch(h, rs[1..])
  {
  }

  // ---------------------------------------------------------------------
  // Options
  // ---------------------------------------------------------------------

  /** The options given to the waiter's constructor (`debug` only affects logging). */
  datatype WaiterOptions = WaiterOptions(
    maxWaitTime: Option<int>, timeout: Option<int>, checkInterval: Option<int>, stableCountThreshold: Option<int>)

  /** The constructor's settings: its defaults, overridden by the given options. */
  datatype Settings = Settings(maxWaitTime: int, timeout: int, checkInterval: int, stableCountThreshold: int)

  function Configure(o: WaiterOptions): (s: Settings)
    ensures o == WaiterOptions(None, None, None, None) ==> s == Settings(120000, 30000, 200, 4)
  {
    Settings(o.maxWaitTime.GetOr(120000), o.timeout.GetOr(30000),
             o.checkInterval.GetOr(200), o.stableCountThreshold.GetOr(4))
  }

  /** The per-call `customOptions`; `None` stands for a key that is not given. */
  datatype StreamOptions = StreamOptions(
    messageContainer: Option<string>,
    typingIndicator: Option<string>,
    stopButton: Option<string>,
    streamingClass: Option<string>,
    completedClass: Option<string>,
    maxWaitTime: Option<int>,
    timeout: Option<int>,
    checkInterval: Option<int>,
    stableCountThreshold: Option<int>,
    additionalSelectors: Option<AdditionalSelectors>)

  const NoStreamOptions := StreamOptions(None, None, None, None, None, None, None, None, None, None)

  /** The merged options the poll loop reads. */
  datatype ChatOptions = ChatOptions(
    messageContainer: string,
    typingIndicator: string,
    stopButton: string,
    streamingClass: string,
    completedClass: string,
    maxWaitTime: int,
    timeout: int,
    checkInterval: int,
    stableCountThreshold: int,
    additionalSelectors: AdditionalSelectors)

  /** Spread order: built-in defaults, then the platform profile, then the custom options. */
  function MergeOptions(s: Settings, p: Profile, c: StreamOptions): ChatOptions {
    ChatOptions(
      c.messageContainer.GetOr(p.messageContainer),
      c.typingIndicator.GetOr(p.typingIndicator),
      c.stopButton.GetOr(p.stopButton),
      c.streamingClass.GetOr(p.streamingClass),
      c.completedClass.GetOr(p.completedClass),
      c.maxWaitTime.GetOr(s.maxWaitTime),
      c.timeout.GetOr(s.timeout),
      c.checkInterval.GetOr(s.checkInterval),
      c.stableCountThreshold.GetOr(s.stableCountThreshold),
      c.additionalSelectors.GetOr(p.additionalSelectors.GetOr(NoAdditionalSelectors)))
  }

  /** The message container, then a truthy `inputField`, with empty selectors dropped. */
  function ContainerSelectors(o: ChatOptions): (r: seq<string>)
    ensures forall i :: 0 <= i < |r| ==> r[i] != ""
    ensures o.messageContainer != "" ==> |r| >= 1 && r[0] == o.messageContainer
    ensures |r| <= 2
  {
    (if o.messageContainer != "" then [o.messageContainer] else [])
    + (if Truthy(o.additionalSelectors.inputField) then [o.additionalSelectors.inputField.value] else [])
  }

  // ---------------------------------------------------------------------
  // Container discovery
  // ---------------------------------------------------------------------

  /**
   * The discovery loop: tries each selector in turn (`resolves` holds the
   * selectors whose `waitForSelector` succeeds within its 5 s timeout) and
   * stops at the first that resolves.
   */
  method Discover(selectors: seq<string>, resolves: set<string>) returns (found: bool, tried: nat)
    ensures found <==> exists i :: 0 <= i < |selectors| && selectors[i] in resolves
    ensures tried <= |selectors|
    ensures found ==> tried >= 1 && selectors[tried - 1] in resolves
    ensures forall i :: 0 <= i < tried - (if found then 1 else 0) ==> selectors[i] !in resolves
  {
    found := false;
    tried := 0;
    while tried < |selectors|
      invariant tried <= |selectors|
      invariant !found
      invariant forall i :: 0 <= i < tried ==> selectors[i] !in resolves
    {
      var selector := selectors[tried];
      tried := tried + 1;
      if selector in resolves {
        found := true;
        break;
      }
    }
  }

  // ---------------------------------------------------------------------
  // One poll tick
  // ---------------------------------------------------------------------

  /**
   * What the page reports at one tick for the merged selectors: the last
   * container's extracted text (before trimming) and height, whether a
   * visible typing indicator or an enabled stop button exists, the
   * container's completed/streaming classes, and whether an element
   * matches the additional loading-spinner selector.
   */
  datatype PageState = PageState(
    text: string,
    height: int,
    typingPresent: bool,
    stopButtonPresent: bool,
    hasCompletedClass: bool,
    hasStreamingClass: bool,
    spinnerMatched: bool)

  datatype Observation = Snapshot(state: PageState) | EvaluateFailed(message: string)

  /** One iteration of the poll loop: the clock reading and what the page returned. */
  datatype Tick = Tick(at: int, observation: Observation)

  /** The record `page.evaluate` returns. */
  datatype Snap = Snap(
    content: string,
    height: int,
    typingPresent: bool,
    stopButtonPresent: bool,
    hasCompletedClass: bool,
    hasStreamingClass: bool,
    isStreaming: bool,
    hasLoadingSpinner: bool)

  /** The in-page evaluation: trims the text and combines the indicators. */
  function Evaluate(o: ChatOptions, p: PageState): Snap {
    Snap(
      Trim(p.text),
      p.height,
      p.typingPresent,
      p.stopButtonPresent,
      p.hasCompletedClass,
      p.hasStreamingClass,
      p.hasStreamingClass || p.typingPresent || p.stopButtonPresent,
      Truthy(o.additionalSelectors.loadingSpinner) && p.spinnerMatched)
  }

  /** The loop's variables. */
  datatype PollState = PollState(
    lastContent: string,
    lastHeight: int,
    stableCount: nat,
    noChangeCount: nat,
    lastUpdateTime: int,
    chunks: seq<string>)

  function InitialState(startTime: int): PollState {
    PollState("", 0, 0, 0, startTime, [])
  }

  /** A tick changes the content when it is non-empty and differs from the last. */
  predicate ContentChanged(s: PollState, e: Snap) {
    e.content != "" && e.content != s.lastContent
  }

  /** `currentContent.slice(lastContent.length)`. */
  function SliceFrom(s: string, k: nat): string {
    if k <= |s| then s[k..] else ""
  }

  /** No chunk is empty or white space only. */
  predicate NoBlankChunks(chunks: seq<string>) {
    forall i :: 0 <= i < |chunks| ==> !Blank(chunks[i])
  }

  /** The content-change detection of one tick at time `now`. */
  function Step(s: PollState, e: Snap, now: int): (t: PollState)
    ensures ContentChanged(s, e) ==>
      && t.lastContent == e.content && t.lastHeight == e.height && t.lastUpdateTime == now
      && t.stableCount == 0 && t.noChangeCount == 0
      && var chunk := SliceFrom(e.content, |s.lastContent|);
         t.chunks == if Trim(chunk) != "" then s.chunks + [chunk] else s.chunks
    ensures !ContentChanged(s, e) ==>
      && t.lastContent == s.lastContent && t.lastHeight == s.lastHeight
      && t.lastUpdateTime == s.lastUpdateTime && t.chunks == s.chunks
      && t.noChangeCount == s.noChangeCount + 1
      && t.stableCount == if e.height == s.lastHeight then s.stableCount + 1 else s.stableCount
    ensures NoBlankChunks(s.chunks) ==> NoBlankChunks(t.chunks)
  {
    if ContentChanged(s, e) then
      var chunk := SliceFrom(e.content, |s.lastContent|);
      TrimEmptyIff(chunk);
      PollState(e.content, e.height, 0, 0, now,
                if Trim(chunk) != "" then s.chunks + [chunk] else s.chunks)
    else
      PollState(s.lastContent, s.lastHeight,
                if e.height == s.lastHeight then s.stableCount + 1 else s.stableCount,
                s.noChangeCount + 1, s.lastUpdateTime, s.chunks)
  }

  /** The quiet period after the last content change, in milliseconds. */
  const QuietPeriod := 2000

  /** The number of content-unchanged ticks after which the stream is idle. */
  const NoChangeLimit := 15

  /** `isDefinitelyComplete`, evaluated on the state after the tick's update. */
  predicate IsDefinitelyComplete(o: ChatOptions, t: PollState, e: Snap, now: int) {
    || e.hasCompletedClass
    || (!e.isStreaming && !e.hasLoadingSpinner && e.content != "" && now - t.lastUpdateTime > QuietPeriod)
    || (t.stableCount >= o.stableCountThreshold && !e.typingPresent && !e.stopButtonPresent)
    || (t.noChangeCount > NoChangeLimit && e.content != "" && !e.isStreaming)
  }

  datatype CompletionReason = CompletionClass | NotStreaming | ContentStable | NoActivity

  /** The logged reason, chosen by priority. */
  function ReasonOf(o: ChatOptions, t: PollState, e: Snap): CompletionReason {
    if e.hasCompletedClass then CompletionClass
    else if !e.isStreaming then NotStreaming
    else if t.stableCount >= o.stableCountThreshold then ContentStable
    else NoActivity
  }

  /**
   * The reason follows the priority completion-class > not-streaming >
   * content-stable > no-activity. When completion fires, `no-activity` is
   * never the reason given (each condition that could fire with the
   * stream still flagged as streaming is already ranked higher), and
   * `content-stable` is given only when the container carries the
   * streaming class while no typing indicator or stop button shows.
   */
  lemma ReasonPriority(o: ChatOptions, t: PollState, e: Snap, now: int)
    requires IsDefinitelyComplete(o, t, e, now)
    ensures ReasonOf(o, t, e) == CompletionClass <==> e.hasCompletedClass
    ensures ReasonOf(o, t, e) == NotStreaming <==> !e.hasCompletedClass && !e.isStreaming
    ensures ReasonOf(o, t, e) == ContentStable <==>
      !e.hasCompletedClass && e.isStreaming && t.stableCount >= o.stableCountThreshold
    ensures ReasonOf(o, t, e) != NoActivity
    ensures ReasonOf(o, t, e) == ContentStable ==> !e.typingPresent && !e.stopButtonPresent
  {
  }

  // ---------------------------------------------------------------------
  // The poll loop and the result
  // ---------------------------------------------------------------------

  /** Why the monitoring stopped. */
  datatype Exit =
    | NoContainer
    | Completed(reason: CompletionReason)
    | TimeUp
    | OutOfObservations
    | EvaluationError(message: string)

  /** The poll loop from state `s` over the remaining ticks. */
  function Poll(o: ChatOptions, startTime: int, s: PollState, ticks: seq<Tick>): (PollState, Exit)
    decreases |ticks|
  {
    if ticks == [] then (s, OutOfObservations)
    else if ticks[0].at - startTime >= o.maxWaitTime then (s, TimeUp)
    else
      match ticks[0].observation
      case EvaluateFailed(m) => (s, EvaluationError(m))
      case Snapshot(p) =>
        var e := Evaluate(o, p);
        var t := Step(s, e, ticks[0].at);
        if IsDefinitelyComplete(o, t, e, ticks[0].at) then (t, Completed(ReasonOf(o, t, e)))
        else Poll(o, startTime, t, ticks[1..])
  }

  const NoContainerMessage := "No message container found with any selector"

  datatype StreamResult = StreamResult(
    success: bool,
    content: string,
    duration: int,
    chunks: seq<string>,
    error: Option<string>,
    totalChunks: nat,
    streamEndReason: string,
    platform: string)

  /** The result built from the loop's final variables; `duration` is `endTime - startTime`. */
  function Finish(platform: Platform, s: PollState, exit: Exit, startTime: int, endTime: int): StreamResult {
    match exit
    case NoContainer =>
      StreamResult(false, s.lastContent, endTime - startTime, s.chunks, Some(NoContainerMessage),
                   |s.chunks|, "error", PlatformName(platform))
    case EvaluationError(m) =>
      StreamResult(false, s.lastContent, endTime - startTime, s.chunks, Some(m),
                   |s.chunks|, "error", PlatformName(platform))
    case _ =>
      StreamResult(true, s.lastContent, endTime - startTime, s.chunks, None,
                   |s.chunks|, "completed", PlatformName(platform))
  }

  /** Everything one `waitForChatBotResponse` call learns from its environment. */
  datatype Environment = Environment(
    pageUrl: Option<string>,
    parse: UrlParser,
    dom: Option<DomIndicators>,
    resolves: set<string>,
    startTime: int,
    ticks: seq<Tick>,
    endTime: int)

  /** The options the call works with: the detected platform's profile merged with `custom`. */
  function CallOptions(settings: Settings, custom: StreamOptions, env: Environment): ChatOptions {
    MergeOptions(settings, GetPlatformConfig(DetectPlatform(env.pageUrl, env.parse, env.dom)), custom)
  }

  /** Some container selector resolves. */
  predicate ContainerFound(o: ChatOptions, resolves: set<string>) {
    exists i :: 0 <= i < |ContainerSelectors(o)| && ContainerSelectors(o)[i] in resolves
  }

  /** What a call returns, and why it stopped, once the platform and options are known. */
  function Outcome(platform: Platform, o: ChatOptions, env: Environment): (StreamResult, Exit) {
    var s0 := InitialState(env.startTime);
    if !ContainerFound(o, env.resolves) then
      (Finish(platform, s0, NoContainer, env.startTime, env.endTime), NoContainer)
    else
      var (s, exit) := Poll(o, env.startTime, s0, env.ticks);
      (Finish(platform, s, exit, env.startTime, env.endTime), exit)
  }

  /** What a whole call returns, and why it stopped, as a function of its inputs. */
  function Response(settings: Settings, custom: StreamOptions, env: Environment): (StreamResult, Exit) {
    Outcome(DetectPlatform(env.pageUrl, env.parse, env.dom), CallOptions(settings, custom, env), env)
  }

  /**
   * The poll loop of `waitForChatBotResponse`: each tick is checked against
   * the time budget, evaluated, folded into the state, and checked for
   * completion.
   */
  method PollLoop(o: ChatOptions, startTime: int, ticks: seq<Tick>) returns (state: PollState, exit: Exit)
    ensures (state, exit) == Poll(o, startTime, InitialState(startTime), ticks)
    ensures NoBlankChunks(state.chunks)
  {
    state := InitialState(startTime);
    var i := 0;
    exit := OutOfObservations;
    while i < |ticks|
      invariant 0 <= i <= |ticks|
      invariant Poll(o, startTime, state, ticks[i..]) == Poll(o, startTime, InitialState(startTime), ticks)
      invariant NoBlankChunks(state.chunks)
      decreases |ticks| - i
    {
      var tick := ticks[i];
      if tick.at - startTime >= o.maxWaitTime {
        exit := TimeUp;
        break;
      }
      match tick.observation {
        case EvaluateFailed(m) =>
          exit := EvaluationError(m);
          break;
        case Snapshot(p) =>
          var e := Evaluate(o, p);
          state := Step(state, e, tick.at);
          if IsDefinitelyComplete(o, state, e, tick.at) {
            exit := Completed(ReasonOf(o, state, e));
            break;
          }
      }
      i := i + 1;
      assert ticks[i - 1..][1..] == ticks[i..];
    }
    assert exit == OutOfObservations ==> ticks[i..] == [];
  }

  /**
   * `waitForChatBotResponse`: detection, discovery, then the poll loop.
   * The second result is the reason the loop stopped (what the waiter logs).
   */
  method WaitForChatBotResponse(settings: Settings, custom: StreamOptions, env: Environment)
    returns (result: StreamResult, exit: Exit)
    ensures (result, exit) == Response(settings, custom, env)
    ensures result.totalChunks == |result.chunks|
    ensures NoBlankChunks(result.chunks)
    ensures result.success <==> exit.Completed? || exit.TimeUp? || exit.OutOfObservations?
  {
    var platform := DetectPlatform(env.pageUrl, env.parse, env.dom);
    var o := MergeOptions(settings, GetPlatformConfig(platform), custom);
    result, exit := Observe(platform, o, env);
  }

  /** Discovery, then the poll loop, once the platform and the options are known. */
  method Observe(platform: Platform, o: ChatOptions, env: Environment) returns (result: StreamResult, exit: Exit)
    ensures (result, exit) == Outcome(platform, o, env)
    ensures result.totalChunks == |result.chunks|
    ensures NoBlankChunks(result.chunks)
    ensures result.success <==> exit.Completed? || exit.TimeUp? || exit.OutOfObservations?
  {
    var state := InitialState(env.startTime);
    var found, _ := Discover(ContainerSelectors(o), env.resolves);
    if !found {
      exit := NoContainer;
      result := Finish(platform, state, exit, env.startTime, env.endTime);
      return;
    }
    state, exit := PollLoop(o, env.startTime, env.ticks);
    result := Finish(platform, state, exit, env.startTime, env.endTime);
  }

  // ---------------------------------------------------------------------
  // Properties of a whole call
  // ---------------------------------------------------------------------

  /**
   * Leaving the loop because the time budget is spent (or the
   * observations ran out) is reported exactly like a detected completion:
   * success, reason `completed`, the last content and the chunks so far.
   */
  lemma TimeoutReportedAsCompletion(platform: Platform, s: PollState, r: CompletionReason, startTime: int, endTime: int)
    ensures Finish(platform, s, TimeUp, startTime, endTime) == Finish(platform, s, Completed(r), startTime, endTime)
    ensures Finish(platform, s, OutOfObservations, startTime, endTime) == Finish(platform, s, TimeUp, startTime, endTime)
    ensures var res := Finish(platform, s, TimeUp, startTime, endTime);
      res.success && res.streamEndReason == "completed" && res.content == s.lastContent && res.error.None?
  {
  }

  /** The loop only stops on time when a tick's clock reading reached the budget. */
  lemma {:induction false} TimeUpOnlyAtDeadline(o: ChatOptions, startTime: int, s: PollState, ticks: seq<Tick>)
    ensures Poll(o, startTime, s, ticks).1 == TimeUp ==> exists i :: 0 <= i < |ticks| && ticks[i].at - startTime >= o.maxWaitTime
    decreases |ticks|
  {
    if ticks != [] && ticks[0].at - startTime < o.maxWaitTime && ticks[0].observation.Snapshot? {
      var e := Evaluate(o, ticks[0].observation.state);
      var t := Step(s, e, ticks[0].at);
      if !IsDefinitelyComplete(o, t, e, ticks[0].at) {
        TimeUpOnlyAtDeadline(o, startTime, t, ticks[1..]);
        if Poll(o, startTime, s, ticks).1 == TimeUp {
          var i :| 0 <= i < |ticks[1..]| && ticks[1..][i].at - startTime >= o.maxWaitTime;
          assert ticks[i + 1] == ticks[1..][i];
        }
      }
    }
  }

  /** A tick whose clock reading is within budget is never the cause of a time-up exit. */
  lemma TimeUpNeverBeforeDeadline(o: ChatOptions, startTime: int, s: PollState, ticks: seq<Tick>)
    requires forall i :: 0 <= i < |ticks| ==> ticks[i].at - startTime < o.maxWaitTime
    ensures Poll(o, startTime, s, ticks).1 != TimeUp
  {
    TimeUpOnlyAtDeadline(o, startTime, s, ticks);
  }

  /**
   * The loop's final content is empty or the trimmed text of a snapshot
   * it observed, and the loop never leaves a blank chunk.
   */
  lemma {:induction false} PollContentObserved(o: ChatOptions, startTime: int, s: PollState, ticks: seq<Tick>)
    requires NoBlankChunks(s.chunks)
    ensures var (t, _) := Poll(o, startTime, s, ticks);
      NoBlankChunks(t.chunks)
      && (t.lastContent == s.lastContent
          || exists i :: 0 <= i < |ticks| && ticks[i].observation.Snapshot?
                         && t.lastContent == Trim(ticks[i].observation.state.text))
    decreases |ticks|
  {
    if ticks != [] && ticks[0].at - startTime < o.maxWaitTime && ticks[0].observation.Snapshot? {
      var e := Evaluate(o, ticks[0].observation.state);
      var t := Step(s, e, ticks[0].at);
      if !IsDefinitelyComplete(o, t, e, ticks[0].at) {
        PollContentObserved(o, startTime, t, ticks[1..]);
        var (u, _) := Poll(o, startTime, t, ticks[1..]);
        if u.lastContent != s.lastContent && u.lastContent != t.lastContent {
          var i :| 0 <= i < |ticks[1..]| && ticks[1..][i].observation.Snapshot?
                   && u.lastContent == Trim(ticks[1..][i].observation.state.text);
          assert ticks[i + 1] == ticks[1..][i];
        }
      }
    }
  }

  /**
   * Without a resolvable container nothing is polled: the call fails with
   * reason `error`, empty content and no chunks, whatever the ticks say.
   */
  lemma NoContainerFails(settings: Settings, custom: StreamOptions, env: Environment)
    requires !ContainerFound(CallOptions(settings, custom, env), env.resolves)
    ensures var (r, exit) := Response(settings, custom, env);
      exit == NoContainer && !r.success && r.streamEndReason == "error" && r.content == ""
      && r.chunks == [] && r.totalChunks == 0 && r.error == Some(NoContainerMessage)
  {
  }

  /**
   * A call returns content that is empty or the trimmed text of one of
   * the observed snapshots.
   */
  lemma ContentObserved(settings: Settings, custom: StreamOptions, env: Environment)
    ensures var (r, _) := Response(settings, custom, env);
      r.content == "" || exists i :: 0 <= i < |env.ticks| && env.ticks[i].observation.Snapshot?
                                   && r.content == Trim(env.ticks[i].observation.state.text)
  {
    var platform := DetectPlatform(env.pageUrl, env.parse, env.dom);
    var o := CallOptions(settings, custom, env);
    OutcomeContentObserved(platform, o, env);
  }

  lemma OutcomeContentObserved(platform: Platform, o: ChatOptions, env: Environment)
    ensures var (r, _) := Outcome(platform, o, env);
      r.content == "" || exists i :: 0 <= i < |env.ticks| && env.ticks[i].observation.Snapshot?
                                   && r.content == Trim(env.ticks[i].observation.state.text)
  {
    var s0 := InitialState(env.startTime);
    if ContainerFound(o, env.resolves) {
      var (s, exit) := Poll(o, env.startTime, s0, env.ticks);
      PollContentObserved(o, env.startTime, s0, env.ticks);
      FinishKeepsLoopState(platform, s, exit, env.startTime, env.endTime);
      assert Outcome(platform, o, env).0 == Finish(platform, s, exit, env.startTime, env.endTime);
    }
  }

  /** Every result carries the loop's last content and its chunks. */
  lemma FinishKeepsLoopState(platform: Platform, s: PollState, exit: Exit, startTime: int, endTime: int)
    ensures var r := Finish(platform, s, exit, startTime, endTime);
      r.content == s.lastContent && r.chunks == s.chunks && r.totalChunks == |s.chunks|
      && r.duration == endTime - startTime && r.platform == PlatformName(platform)
  {
  }

  /**
   * The built-in and generic profiles carry no `additionalSelectors`, so
   * unless the caller passes a loading-spinner selector the spinner is
   * never reported.
   */
  lemma SpinnerNeedsCustomSelector(settings: Settings, p: Platform, custom: StreamOptions, ps: PageState)
    requires custom.additionalSelectors.None?
    ensures !Evaluate(MergeOptions(settings, GetPlatformConfig(p), custom), ps).hasLoadingSpinner
    ensures var mc := custom.messageContainer.GetOr(GetPlatformConfig(p).messageContainer);
      ContainerSelectors(MergeOptions(settings, GetPlatformConfig(p), custom)) == if mc != "" then [mc] else []
  {

  }

  // ---------------------------------------------------------------------
  // Readiness
  // ---------------------------------------------------------------------

  /**
   * `waitForChatBotReady`: waits for the input field and the send button
   * only when the profile's `additionalSelectors` names them;
   * `inputReady` and `sendReady` say whether those waits would succeed.
   */
  function WaitForChatBotReady(pageUrl: Option<string>, parse: UrlParser, dom: Option<DomIndicators>,
                               inputReady: bool, sendReady: bool): bool
  {
    var config := GetPlatformConfig(DetectPlatform(pageUrl, parse, dom));
    var extra := config.additionalSelectors;
    !(extra.Some? && Truthy(extra.value.inputField) && !inputReady)
    && !(extra.Some? && Truthy(extra.value.sendButton) && !sendReady)
  }

  /** Readiness is reported without waiting on anything, for every profile. */
  lemma ReadyWithoutWaiting(pageUrl: Option<string>, parse: UrlParser, dom: Option<DomIndicators>,
                            inputReady: bool, sendReady: bool)
    ensures WaitForChatBotReady(pageUrl, parse, dom, inputReady, sendReady)
  {
  }
}
