/**
 * The two page scrapers, src/scraper/wikipedia-scraper.ts and
 * src/scraper/news-scraper.ts: each opens one page on a shared browser,
 * navigates to the job's URL, captures a screenshot and extracts links
 * and markdown from the page's HTML. They differ in clean-up: the
 * Wikipedia scraper always sends the page back to `about:blank` and
 * never closes it; the news scraper closes the page, but only when every
 * step succeeded.
 */
module Scrapers {
  import opened Wrappers
  import opened Text
  import opened Url
  import opened Puppeteer
  import opened Extraction

  /** What a scraper returns. */
  datatype ScrapeResult = ScrapeResult(screenshot: string, markdown: string, links: seq<string>)

  /** The most links a scrape result carries. */
  const MaxLinks := 100

  /** `links.slice(0, 100)`. */
  function FirstLinks(links: seq<string>): (r: seq<string>)
    ensures |r| == if |links| < MaxLinks then |links| else MaxLinks
    ensures r == links[..|r|]
  {
    if |links| < MaxLinks then links else links[..MaxLinks]
  }

  /**
   * What the browser does during one visit: the error `newPage` or the
   * navigation to the job's URL throws, if any; what `page.title()` and
   * `page.content()` give or throw (and the HTML parsed); the screenshot
   * upload's URL or error; the error `page.close()` throws, if any; and
   * whether the navigation back to `about:blank` succeeds.
   */
  datatype Visit = Visit(
    newPageError: Option<string>, gotoError: Option<string>,
    title: Result<string, string>, html: Result<string, string>, doc: Document,
    screenshot: Result<string, string>, closeError: Option<string>, blankOk: bool)

  /** The result every scraper produces once the page has loaded. */
  function Outcome(v: Visit, markdown: string, parse: UrlParser): Result<ScrapeResult, string> {
    match v.screenshot
    case Err(e) => Err(e)
    case Ok(shot) => Ok(ScrapeResult(shot, markdown, FirstLinks(Links(v.doc.hrefs, parse))))
  }

  /**
   * `WikipediaScraper.scrape`. Opens exactly one page; any error of the
   * navigation, of `page.content()` or of the screenshot is rethrown
   * unchanged, in that order; on every path
   * after the page was opened the page is sent to `about:blank` (a
   * failure there is swallowed) and it is never closed.
   */
  method ScrapeWikipedia(browser: Browser, url: string, v: Visit, parse: UrlParser)
    returns (r: Result<ScrapeResult, string>)
    modifies browser
    ensures browser.closed == old(browser.closed) && browser.sessionId == old(browser.sessionId)
    ensures v.newPageError.Some? ==> r == Err(v.newPageError.value) && browser.pages == old(browser.pages)
    ensures v.newPageError.None? ==>
      && |browser.pages| == |old(browser.pages)| + 1
      && browser.pages[..|old(browser.pages)|] == old(browser.pages)
      && var page := browser.pages[|old(browser.pages)|];
      && fresh(page) && !page.closed
      && page.url == (if v.blankOk || v.gotoError.Some? then "about:blank" else url)
    ensures v.newPageError.None? && v.gotoError.Some? ==> r == Err(v.gotoError.value)
    ensures v.newPageError.None? && v.gotoError.None? && v.html.Err? ==> r == Err(v.html.error)
    ensures v.newPageError.None? && v.gotoError.None? && v.html.Ok? ==> r == Outcome(v, Description(v.doc), parse)
  {
    if v.newPageError.Some? {
      return Err(v.newPageError.value);
    }
    var page := browser.NewPage();
    if v.gotoError.Some? {
      r := Err(v.gotoError.value);
    } else {
      page.Goto(url);
      if v.html.Err? {
        r := Err(v.html.error);
      } else {
        match v.screenshot {
          case Err(e) =>
            r := Err(e);
          case Ok(shot) =>
            var links := ExtractLinks(v.doc.hrefs, parse);
            var markdown := ExtractLongFormDescription(v.doc);
            r := Ok(ScrapeResult(shot, markdown, FirstLinks(links)));
        }
      }
    }
    if v.blankOk {
      page.Goto("about:blank");
    }
  }

  /** The length `content.substring(0, 2000)` keeps. */
  const FallbackContentLength := 2000

  /** `s.substring(0, n)`. */
  function Prefix(s: string, n: nat): (r: string)
    ensures |r| == if |s| < n then |s| else n
    ensures r == s[..|r|]
  {
    if |s| < n then s else s[..n]
  }

  /**
   * The news markdown: the extracted description when its trimmed length
   * is more than one character, otherwise a heading with the page title
   * over the first 2000 characters of the HTML and an ellipsis.
   */
  function NewsMarkdown(description: string, title: string, html: string): string {
    if |Trim(description)| > 1 then description
    else "# " + title + "\n\n" + Prefix(html, FallbackContentLength) + "..."
  }

  /** The news markdown is never blank: either the description is kept, or the fallback heading is used. */
  lemma NewsMarkdownNeverBlank(description: string, title: string, html: string)
    ensures var m := NewsMarkdown(description, title, html);
      && !Blank(m)
      && (|Trim(description)| > 1 ==> m == description)
      && (|Trim(description)| <= 1 ==> StartsWith(m, "# " + title + "\n\n") && |m| <= |title| + 4 + FallbackContentLength + 3)
  {
    var m := NewsMarkdown(description, title, html);
    if |Trim(description)| > 1 {
      TrimEmptyIff(description);
      assert !Blank(description);
    } else {
      var head := "# " + title + "\n\n";
      assert m == head + (Prefix(html, FallbackContentLength) + "...");
      assert m[..|head|] == head;
      assert m[0] == '#';
    }
  }

  /** A one-character description is not kept: the fallback replaces it. */
  lemma SingleCharacterDescriptionReplaced(c: char, title: string, html: string)
    requires !IsSpace(c)
    ensures NewsMarkdown([c], title, html) != [c]
  {
    assert LeadingSpaces([c]) == 0;
    assert TrailingSpaces([c]) == 0;
    assert Trim([c]) == [c];
  }

  /**
   * `NewsScraper.scrape`. Opens exactly one page; the errors of the
   * navigation, `page.title()`, `page.content()`, the screenshot and
   * `page.close()` are rethrown, in that order; the page is closed exactly
   * when the scrape succeeds, because no `finally` closes it on the error
   * paths.
   */
  method ScrapeNews(browser: Browser, url: string, v: Visit, parse: UrlParser)
    returns (r: Result<ScrapeResult, string>)
    modifies browser
    ensures browser.closed == old(browser.closed) && browser.sessionId == old(browser.sessionId)
    ensures v.newPageError.Some? ==> r == Err(v.newPageError.value) && browser.pages == old(browser.pages)
    ensures v.newPageError.None? ==>
      && |browser.pages| == |old(browser.pages)| + 1
      && browser.pages[..|old(browser.pages)|] == old(browser.pages)
      && var page := browser.pages[|old(browser.pages)|];
      && fresh(page) && (page.closed <==> r.Ok?)
      && page.url == (if v.gotoError.Some? then "about:blank" else url)
    ensures v.newPageError.None? && v.gotoError.Some? ==> r == Err(v.gotoError.value)
    ensures v.newPageError.None? && v.gotoError.None? && v.title.Err? ==> r == Err(v.title.error)
    ensures v.newPageError.None? && v.gotoError.None? && v.title.Ok? && v.html.Err? ==> r == Err(v.html.error)
    ensures v.newPageError.None? && v.gotoError.None? && v.title.Ok? && v.html.Ok? ==>
      r == if v.screenshot.Ok? && v.closeError.Some? then Err(v.closeError.value)
           else Outcome(v, NewsMarkdown(Description(v.doc), v.title.value, v.html.value), parse)
  {
    if v.newPageError.Some? {
      return Err(v.newPageError.value);
    }
    var page := browser.NewPage();
    if v.gotoError.Some? {
      return Err(v.gotoError.value);
    }
    page.Goto(url);
    if v.title.Err? {
      return Err(v.title.error);
    }
    if v.html.Err? {
      return Err(v.html.error);
    }
    match v.screenshot {
      case Err(e) =>
        return Err(e);
      case Ok(shot) =>
        var links := ExtractLinks(v.doc.hrefs, parse);
        var actualMarkdown := ExtractLongFormDescription(v.doc);
        var markdown := NewsMarkdown(actualMarkdown, v.title.value, v.html.value);
        if v.closeError.Some? {
          return Err(v.closeError.value);
        }
        page.Close();
        r := Ok(ScrapeResult(shot, markdown, FirstLinks(links)));
    }
  }
}
