/**
 * DriverManager: one browser session per worker thread. The ThreadLocal
 * registry is an explicit map from worker id to session; the browser switch
 * that builds the launch options is a pure function. Starting a browser and
 * quitting one are done by Selenium, so their outcomes are parameters.
 */
module Drivers {
  import opened JavaText
  import Config

  /** Identity of a worker thread. */
  type WorkerId = nat

  /** Identity of a live WebDriver, as handed out by Selenium. */
  type Handle = nat

  datatype Browser = Chrome | Firefox | Edge

  /** The launch options built by the browser switch. */
  datatype LaunchOptions = LaunchOptions(
    browser: Browser,
    args: seq<string>,            // addArguments calls, in order
    maximizeAfterStart: bool)     // window().maximize() after the driver starts

  /** A registered session: the Selenium handle and how it was configured. */
  datatype Session = Session(
    handle: Handle,
    options: LaunchOptions,
    implicitWait: int,            // seconds
    pageLoadTimeout: int)         // seconds

  const CHROME_ARGS: seq<string> :=
    ["--disable-notifications", "--start-maximized", "--disable-popup-blocking",
     "--disable-dev-shm-usage", "--no-sandbox"]

  predicate IsHeadlessArg(a: string) {
    a == "--headless=new" || a == "--headless"
  }

  /** A session whose window ends up maximized, either by argument or by a call. */
  predicate Maximized(o: LaunchOptions) {
    o.maximizeAfterStart || "--start-maximized" in o.args
  }

  /**
   * The switch of initializeDriver on an already lower-cased name: exact
   * matches of "chrome", "firefox" and "edge"; anything else is rejected.
   */
  function BrowserOptions(browser: string, headless: bool): (r: Result<LaunchOptions, Exception>)
    ensures r.Ok? <==> browser in {"chrome", "firefox", "edge"}
    ensures r.Err? ==> r.error == IllegalArgument("Browser not supported: " + browser)
    ensures browser == "chrome" ==>
              r == Ok(LaunchOptions(Chrome, (if headless then ["--headless=new"] else []) + CHROME_ARGS, false))
    ensures browser == "firefox" ==>
              r == Ok(LaunchOptions(Firefox, if headless then ["--headless"] else [], true))
    ensures browser == "edge" ==>
              r == Ok(LaunchOptions(Edge, (if headless then ["--headless=new"] else []) + ["--start-maximized"], false))
  {
    var headlessArgs := if headless then ["--headless=new"] else [];
    if browser == "chrome" then
      Ok(LaunchOptions(Chrome, headlessArgs + CHROME_ARGS, false))
    else if browser == "firefox" then
      Ok(LaunchOptions(Firefox, if headless then ["--headless"] else [], true))
    else if browser == "edge" then
      Ok(LaunchOptions(Edge, headlessArgs + ["--start-maximized"], false))
    else
      Err(IllegalArgument("Browser not supported: " + browser))
  }

  /** Every supported browser asks for headless mode exactly when headless is set. */
  lemma HeadlessArgIffHeadless(browser: string, headless: bool)
    requires BrowserOptions(browser, headless).Ok?
    ensures (exists a :: a in BrowserOptions(browser, headless).value.args && IsHeadlessArg(a)) <==> headless
  {
    var args := BrowserOptions(browser, headless).value.args;
    if headless {
      assert IsHeadlessArg(args[0]);
    } else {
      assert forall a :: a in args ==> !IsHeadlessArg(a);
    }
  }

  /** Every supported browser is maximized, headless or not. */
  lemma AlwaysMaximized(browser: string, headless: bool)
    requires BrowserOptions(browser, headless).Ok?
    ensures Maximized(BrowserOptions(browser, headless).value)
  {
    var o := BrowserOptions(browser, headless).value;
    if browser == "chrome" {
      assert o.args[|o.args| - 4] == "--start-maximized";
    } else if browser == "edge" {
      assert o.args[|o.args| - 1] == "--start-maximized";
    }
  }

  /** Because the name is lower-cased first, the match ignores case. */
  lemma BrowserNameIgnoresCase(name: string, headless: bool)
    ensures BrowserOptions(ToLowerCase(name), headless).Ok? <==>
              EqualsIgnoreCase(name, "chrome") || EqualsIgnoreCase(name, "firefox") ||
              EqualsIgnoreCase(name, "edge")
  {
    EqualsIgnoreCaseLowerText(name, "chrome");
    EqualsIgnoreCaseLowerText(name, "firefox");
    EqualsIgnoreCaseLowerText(name, "edge");
    var lower := ToLowerCase(name);
    assert BrowserOptions(lower, headless).Ok? <==> lower == "chrome" || lower == "firefox" || lower == "edge";
  }

  /**
   * What initializeDriver produces: the options for the configured browser,
   * the started driver (None when Selenium fails to start it) and the
   * timeouts. The implicit wait is read after the browser has started, so a
   * bad "implicit.wait" throws with a live browser that is never registered.
   * The page-load timeout is the constant, not "page.load.timeout".
   */
  function StartSession(src: Config.Sources, started: Option<Handle>): (r: Result<Session, Exception>)
    ensures BrowserOptions(ToLowerCase(Config.GetBrowser(src)), Config.IsHeadless(src)).Err? ==>
              r == Err(BrowserOptions(ToLowerCase(Config.GetBrowser(src)), Config.IsHeadless(src)).error)
    ensures r.Ok? ==> started == Some(r.value.handle)
    ensures r.Ok? ==> Ok(r.value.options) == BrowserOptions(ToLowerCase(Config.GetBrowser(src)), Config.IsHeadless(src))
    ensures r.Ok? ==> Config.GetImplicitWait(src) == Ok(r.value.implicitWait)
    ensures r.Ok? ==> r.value.pageLoadTimeout == Config.PAGE_LOAD_TIMEOUT
    ensures r.Ok? <==> BrowserOptions(ToLowerCase(Config.GetBrowser(src)), Config.IsHeadless(src)).Ok? &&
                       started.Some? && Config.GetImplicitWait(src).Ok?
  {
    match BrowserOptions(ToLowerCase(Config.GetBrowser(src)), Config.IsHeadless(src))
    case Err(e) => Err(e)
    case Ok(options) =>
      match started
      case None => Err(WebDriver)
      case Some(h) =>
        match Config.GetImplicitWait(src)
        case Err(e) => Err(e)
        case Ok(wait) => Ok(Session(h, options, wait, Config.PAGE_LOAD_TIMEOUT))
  }

  /** With no configuration at all, Chrome starts with a 10 s implicit wait and is not headless. */
  lemma DefaultSession(h: Handle)
    ensures StartSession(Config.Sources(map[], map[]), Some(h))
         == Ok(Session(h, LaunchOptions(Chrome, CHROME_ARGS, false), 10, 30))
  {
    var src := Config.Sources(map[], map[]);
    assert Config.GetBrowser(src) == "chrome";
    LowerCaseUnchanged("chrome");
    assert Config.GetPropertyOr(src, "headless", "false") == "false";
    LowerCaseUnchanged("false");
    assert !Config.IsHeadless(src);
    assert [] + CHROME_ARGS == CHROME_ARGS;
    assert BrowserOptions("chrome", false) == Ok(LaunchOptions(Chrome, CHROME_ARGS, false));
    assert Config.GetImplicitWait(src) == Ok(10);
  }

  /** The per-worker registry behind DriverManager's static ThreadLocal. */
  class DriverManager {
    var drivers: map<WorkerId, Session>
    var quitLog: seq<Handle>      // sessions quit through quitDriver, in order

    constructor ()
      ensures drivers == map[] && quitLog == []
    {
      drivers := map[];
      quitLog := [];
    }

    /** getDriver: the worker's session, never creating one. */
    method GetDriver(w: WorkerId) returns (s: Option<Session>)
      ensures s.Some? <==> w in drivers
      ensures s.Some? ==> s.value == drivers[w]
    {
      if w in drivers {
        s := Some(drivers[w]);
      } else {
        s := None;
      }
    }

    /** setDriver: binds the session to the worker, replacing any earlier one. */
    method SetDriver(w: WorkerId, s: Session)
      modifies this`drivers
      ensures drivers == old(drivers)[w := s]
    {
      drivers := drivers[w := s];
    }

    /**
     * initializeDriver: on success the new session replaces the worker's
     * previous one, which is not quit; on any exception nothing is registered.
     */
    method InitializeDriver(w: WorkerId, src: Config.Sources, started: Option<Handle>)
      returns (r: Result<Session, Exception>)
      modifies this`drivers
      ensures r == StartSession(src, started)
      ensures r.Ok? ==> drivers == old(drivers)[w := r.value]
      ensures r.Err? ==> drivers == old(drivers)
    {
      r := StartSession(src, started);
      if r.Ok? {
        SetDriver(w, r.value);
      }
    }

    /**
     * quitDriver: quits and unregisters the worker's session if it has one.
     * An exception from quit propagates before the entry is removed.
     */
    method QuitDriver(w: WorkerId, quitThrows: bool) returns (r: Result<(), Exception>)
      modifies this
      ensures w !in old(drivers) ==> r == Ok(()) && drivers == old(drivers) && quitLog == old(quitLog)
      ensures w in old(drivers) && !quitThrows ==>
                r == Ok(()) && drivers == old(drivers) - {w} &&
                quitLog == old(quitLog) + [old(drivers)[w].handle]
      ensures w in old(drivers) && quitThrows ==>
                r == Err(WebDriver) && drivers == old(drivers) && quitLog == old(quitLog)
    {
      var current := GetDriver(w);
      if current.Some? {
        if quitThrows {
          return Err(WebDriver);
        }
        quitLog := quitLog + [current.value.handle];
        drivers := drivers - {w};
      }
      return Ok(());
    }
  }

  /**
   * An example run, not a general property: an unsupported browser leaves
   * the worker without a session, and a second quit does nothing.
   */
  method LifecycleScenario(h: Handle)
  {
    var m := new DriverManager();
    var bad := m.InitializeDriver(1, Config.Sources(map["browser" := "safari"], map[]), Some(h));
    LowerCaseUnchanged("safari");
    assert bad.Err?;
    var none := m.GetDriver(1);
    assert none == None;

    var ok := m.InitializeDriver(1, Config.Sources(map[], map[]), Some(h));
    DefaultSession(h);
    var some := m.GetDriver(1);
    assert some.Some? && some.value.handle == h;
    var first := m.QuitDriver(1, false);
    var second := m.QuitDriver(1, false);
    assert first == second == Ok(());
    assert m.quitLog == [h] && m.drivers == map[];
  }
}
