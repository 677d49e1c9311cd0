/**
 * Abstract handles for a headless browser and its pages. Nothing here runs
 * a browser: a handle only records what the modelled code did to it
 * (pages opened, navigations, closes), so that contracts can say which
 * pages a routine leaves open and whether it closed the browser. Whether
 * a call on a handle throws is decided by the caller's inputs.
 */
module Puppeteer {

  /** What a browser is launched with (the parts the factory decides). */
  datatype LaunchOptions = LaunchOptions(args: seq<string>, headless: bool, timeoutMs: int)

  class Page {
    var url: string
    var closed: bool

    /** A new page starts out blank. */
    constructor ()
      ensures url == "about:blank" && !closed
    {
      url := "about:blank";
      closed := false;
    }

    /** A navigation that succeeded. */
    method Goto(target: string)
      modifies this
      ensures url == target && closed == old(closed)
    {
      url := target;
    }

    method Close()
      modifies this
      ensures closed && url == old(url)
    {
      closed := true;
    }
  }

  class Browser {
    const launchOptions: LaunchOptions
    var sessionId: string
    var closed: bool
    /** Every page opened on this browser, in opening order. */
    var pages: seq<Page>

    /** A browser process that has just been launched. */
    constructor Launch(options: LaunchOptions)
      ensures launchOptions == options && sessionId == "" && !closed && pages == []
    {
      launchOptions := options;
      sessionId := "";
      closed := false;
      pages := [];
    }

    /** `browser.newPage()` when it succeeds. */
    method NewPage() returns (p: Page)
      modifies this
      ensures fresh(p) && !p.closed && p.url == "about:blank"
      ensures pages == old(pages) + [p]
      ensures closed == old(closed) && sessionId == old(sessionId)
    {
      p := new Page();
      pages := pages + [p];
    }

    /** `browser.close()` when it succeeds. */
    method Close()
      modifies this
      ensures closed && pages == old(pages) && sessionId == old(sessionId)
    {
      closed := true;
    }

    /** The pages still open, as `browser.pages()` lists them. */
    function OpenPages(): (r: seq<Page>)
      reads this, pages
      ensures forall p :: p in r ==> p in pages && !p.closed
      ensures forall p :: p in pages && !p.closed ==> p in r
    {
      OpenAmong(pages)
    }
  }

  function OpenAmong(ps: seq<Page>): (r: seq<Page>)
    reads ps
    ensures forall p :: p in r ==> p in ps && !p.closed
    ensures forall p :: p in ps && !p.closed ==> p in r
  {
    if ps == [] then []
    else (if ps[0].closed then [] else [ps[0]]) + OpenAmong(ps[1..])
  }
}
