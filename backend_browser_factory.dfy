/**
 * The backend's browser factory (wiki-scraper-backend/src/scraper/browser-factory.ts).
 * It keeps nothing but its configuration: every `createBrowser()` launches
 * a new browser, and a launch that throws is rethrown. There is no cache,
 * no singleton and no keep-alive, unlike the factory of src/scraper.
 */
module BackendBrowserFactory {
  import opened Wrappers
  import opened Puppeteer
  import opened BrowserFactory

  /** The parts of the factory's config that reach `launch`: the proxy, and the launch options it may override. */
  datatype Config = Config(proxy: Option<string>, args: Option<seq<string>>, headless: Option<bool>)

  /** `new BrowserFactory()` with no argument. */
  const EmptyConfig := Config(None, None, None)

  /** Puppeteer's default launch timeout; this factory never sets one. */
  const DefaultLaunchTimeoutMs := 30000

  /** `args`: a `--proxy-server=` flag when the config has a non-empty proxy. */
  function ProxyArgs(config: Config): seq<string> {
    if config.proxy.Some? && config.proxy.value != "" then [ProxyServerPrefix + config.proxy.value] else []
  }

  /**
   * The options `createBrowser` launches with. On macOS: `args`, headful,
   * then the config spread over them; elsewhere the Chromium build's
   * arguments and headless mode, and the config is not read.
   */
  function LaunchOptionsFor(config: Config, env: HostEnv): LaunchOptions {
    if env.isMacOS then LaunchOptions(config.args.GetOr(ProxyArgs(config)), config.headless.GetOr(false), DefaultLaunchTimeoutMs)
    else LaunchOptions(env.chromiumArgs, env.chromiumHeadless, DefaultLaunchTimeoutMs)
  }

  class Factory {
    const config: Config

    /** `constructor(config = {})`: the config is stored and nothing else happens. */
    constructor (config: Config)
      ensures this.config == config
    {
      this.config := config;
    }

    /**
     * `createBrowser()`: `launchError` is what launching throws, if anything
     * (`chromium.executablePath()` included); it is rethrown. Otherwise the
     * browser is a new one, launched with this factory's options.
     */
    method CreateBrowser(env: HostEnv, launchError: Option<string>) returns (r: Result<Browser, string>)
      ensures launchError.Some? ==> r == Err(launchError.value)
      ensures launchError.None? ==> r.Ok? && fresh(r.value) && r.value.launchOptions == LaunchOptionsFor(config, env)
      ensures launchError.None? ==> !r.value.closed && r.value.pages == []
    {
      if launchError.Some? {
        return Err(launchError.value);
      }
      var browser := new Browser.Launch(LaunchOptionsFor(config, env));
      return Ok(browser);
    }
  }

  // ---- properties ----

  /** Outside macOS the configuration, proxy included, has no effect on the launch. */
  lemma ConfigIgnoredOffMacOS(config: Config, env: HostEnv)
    requires !env.isMacOS
    ensures LaunchOptionsFor(config, env) == LaunchOptionsFor(EmptyConfig, env)
    ensures LaunchOptionsFor(config, env).args == env.chromiumArgs
  {
  }

  /** On macOS a config that sets no launch options gets the proxy flag exactly when it has a proxy, and is headful. */
  lemma MacOSProxyFlagIff(config: Config, env: HostEnv)
    requires env.isMacOS && config.args.None? && config.headless.None?
    ensures var o := LaunchOptionsFor(config, env);
      && !o.headless
      && (o.args != [] <==> config.proxy.Some? && config.proxy.value != "")
      && (o.args != [] ==> o.args == [ProxyServerPrefix + config.proxy.value])
  {
  }

  /** The dispatcher's `new BrowserFactory()` launches with no argument on macOS and with Chromium's elsewhere. */
  lemma EmptyConfigLaunch(env: HostEnv)
    ensures LaunchOptionsFor(EmptyConfig, env).args == (if env.isMacOS then [] else env.chromiumArgs)
    ensures LaunchOptionsFor(EmptyConfig, env).headless == (!env.isMacOS && env.chromiumHeadless)
  {
  }
}
