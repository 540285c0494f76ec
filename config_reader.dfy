/**
 * ConfigReader: the framework settings, resolved from two sources. A
 * non-empty JVM system property (a command-line override) wins over the
 * value in config.properties; typed getters fall back to the framework's
 * constant defaults.
 */
module Config {
  import opened JavaText

  // FrameworkConstants defaults used by the getters.
  const IMPLICIT_WAIT: int := 10
  const EXPLICIT_WAIT: int := 20
  const PAGE_LOAD_TIMEOUT: int := 30
  const MAX_RETRY_COUNT: int := 1
  const PARALLEL_THREAD_COUNT: int := 5
  const HEADLESS_MODE: bool := false
  const CAPTURE_SCREENSHOT_ON_PASS: bool := false
  const CAPTURE_SCREENSHOT_ON_FAIL: bool := true
  const DEFAULT_BROWSER: string := "chrome"
  const DEFAULT_ENVIRONMENT: string := "qa"
  const EXECUTION_MODE: string := "local"
  const GRID_URL: string := "http://localhost:4444"
  const DEFAULT_URL: string := "https://www.saucedemo.com/"

  /** System properties and the loaded config.properties file. */
  datatype Sources = Sources(system: map<string, string>, file: map<string, string>)

  /** Whether the key carries a non-empty system property. */
  predicate Overridden(src: Sources, key: string) {
    key in src.system && src.system[key] != ""
  }

  /** The value a key resolves to when it is set somewhere and non-empty. */
  predicate Present(src: Sources, key: string, v: string) {
    if Overridden(src, key) then src.system[key] == v
    else key in src.file && src.file[key] == v && v != ""
  }

  /**
   * getProperty(key): a non-empty system property if there is one,
   * otherwise the file's value, which may be absent (null) or empty.
   */
  function GetProperty(src: Sources, key: string): (r: Option<string>)
    ensures Overridden(src, key) ==> r == Some(src.system[key])
    ensures !Overridden(src, key) ==> (r.Some? <==> key in src.file)
    ensures !Overridden(src, key) && r.Some? ==> r.value == src.file[key]
  {
    if Overridden(src, key) then Some(src.system[key])
    else if key in src.file then Some(src.file[key])
    else None
  }

  /** getProperty(key, default): the resolved value unless it is null or empty. */
  function GetPropertyOr(src: Sources, key: string, default: string): (r: string)
    ensures forall v :: Present(src, key, v) ==> r == v
    ensures (forall v :: !Present(src, key, v)) ==> r == default
    ensures default != "" ==> r != ""
  {
    match GetProperty(src, key)
    case Some(v) => if v != "" then assert Present(src, key, v); v else default
    case None => default
  }

  /** A system property set to "" has the same effect as no system property. */
  lemma EmptyOverrideIsIgnored(src: Sources, key: string, default: string)
    ensures GetPropertyOr(Sources(src.system[key := ""], src.file), key, default)
         == GetPropertyOr(Sources(src.system - {key}, src.file), key, default)
  {
  }

  // ------------------------------------------------------------ strings

  /** getEnvironment: the configured environment, "qa" when unset or empty. */
  function GetEnvironment(src: Sources): (r: string)
    ensures forall v :: Present(src, "environment", v) ==> r == v
    ensures (forall v :: !Present(src, "environment", v)) ==> r == DEFAULT_ENVIRONMENT
  {
    GetPropertyOr(src, "environment", DEFAULT_ENVIRONMENT)
  }

  /**
   * getUrl: the value of "<environment>.url"; only when that key resolves
   * to null does it fall back to "url" and then to the default site.
   */
  function GetUrl(src: Sources): (r: string)
    ensures GetProperty(src, GetEnvironment(src) + ".url").Some? ==>
              r == GetProperty(src, GetEnvironment(src) + ".url").value
    ensures GetProperty(src, GetEnvironment(src) + ".url").None? ==>
              r == GetPropertyOr(src, "url", DEFAULT_URL) && r != ""
  {
    match GetProperty(src, GetEnvironment(src) + ".url")
    case Some(url) => url
    case None => GetPropertyOr(src, "url", DEFAULT_URL)
  }

  /** An environment URL present but empty is returned as it is: no fallback. */
  lemma EmptyEnvironmentUrlIsKept(src: Sources)
    requires GetEnvironment(src) + ".url" !in src.system
    requires src.file == map[GetEnvironment(src) + ".url" := ""]
    ensures GetUrl(src) == ""
  {
  }

  /** With nothing configured the qa environment has no URL and the default site is used. */
  lemma UrlDefault()
    ensures GetUrl(Sources(map[], map[])) == DEFAULT_URL
  {
    assert GetEnvironment(Sources(map[], map[])) == "qa";
  }

  /** getBrowser: the configured browser name as written, "chrome" when unset or empty. */
  function GetBrowser(src: Sources): (r: string)
    ensures forall v :: Present(src, "browser", v) ==> r == v
    ensures (forall v :: !Present(src, "browser", v)) ==> r == DEFAULT_BROWSER
  {
    GetPropertyOr(src, "browser", DEFAULT_BROWSER)
  }

  /** getExecutionMode: the configured mode, "local" when unset or empty. */
  function GetExecutionMode(src: Sources): (r: string)
    ensures forall v :: Present(src, "execution.mode", v) ==> r == v
    ensures (forall v :: !Present(src, "execution.mode", v)) ==> r == EXECUTION_MODE
  {
    GetPropertyOr(src, "execution.mode", EXECUTION_MODE)
  }

  /** getGridUrl: the configured hub address, the local hub when unset or empty. */
  function GetGridUrl(src: Sources): (r: string)
    ensures forall v :: Present(src, "grid.url", v) ==> r == v
    ensures (forall v :: !Present(src, "grid.url", v)) ==> r == GRID_URL
  {
    GetPropertyOr(src, "grid.url", GRID_URL)
  }

  /** getUsername: the configured user name, "" when unset. */
  function GetUsername(src: Sources): (r: string)
    ensures forall v :: Present(src, "username", v) ==> r == v
    ensures (forall v :: !Present(src, "username", v)) ==> r == ""
  {
    GetPropertyOr(src, "username", "")
  }

  /** getPassword: the configured password, "" when unset. */
  function GetPassword(src: Sources): (r: string)
    ensures forall v :: Present(src, "password", v) ==> r == v
    ensures (forall v :: !Present(src, "password", v)) ==> r == ""
  {
    GetPropertyOr(src, "password", "")
  }

  // ----------------------------------------------------------- booleans

  /** A boolean setting: true iff the resolved text is "true" ignoring case. */
  function GetFlag(src: Sources, key: string, default: bool): (r: bool)
    ensures r <==> ToLowerCase(GetPropertyOr(src, key, BoolString(default))) == "true"
    ensures forall v :: Present(src, key, v) ==> (r <==> ToLowerCase(v) == "true")
    ensures (forall v :: !Present(src, key, v)) ==> r == default
  {
    LowerCaseUnchanged("true");
    LowerCaseUnchanged("false");
    ParseBoolean(GetPropertyOr(src, key, BoolString(default)))
  }

  /** isHeadless: "headless" is "true" ignoring case; false when unset. */
  function IsHeadless(src: Sources): (r: bool)
    ensures forall v :: Present(src, "headless", v) ==> (r <==> ToLowerCase(v) == "true")
    ensures (forall v :: !Present(src, "headless", v)) ==> r == HEADLESS_MODE
  {
    GetFlag(src, "headless", HEADLESS_MODE)
  }

  /** captureScreenshotOnPass: false when unset. */
  function CaptureScreenshotOnPass(src: Sources): (r: bool)
    ensures forall v :: Present(src, "screenshot.on.pass", v) ==> (r <==> ToLowerCase(v) == "true")
    ensures (forall v :: !Present(src, "screenshot.on.pass", v)) ==> r == CAPTURE_SCREENSHOT_ON_PASS
  {
    GetFlag(src, "screenshot.on.pass", CAPTURE_SCREENSHOT_ON_PASS)
  }

  /** captureScreenshotOnFail: true when unset. */
  function CaptureScreenshotOnFail(src: Sources): (r: bool)
    ensures forall v :: Present(src, "screenshot.on.fail", v) ==> (r <==> ToLowerCase(v) == "true")
    ensures (forall v :: !Present(src, "screenshot.on.fail", v)) ==> r == CAPTURE_SCREENSHOT_ON_FAIL
  {
    GetFlag(src, "screenshot.on.fail", CAPTURE_SCREENSHOT_ON_FAIL)
  }

  /** isRetryEnabled: "retry.enabled" (default "true") equals "true" ignoring case. */
  function IsRetryEnabled(src: Sources): (r: bool)
    ensures r <==> ToLowerCase(GetPropertyOr(src, "retry.enabled", "true")) == "true"
  {
    ParseBoolean(GetPropertyOr(src, "retry.enabled", "true"))
  }

  /** isRemoteExecution: the execution mode equals "remote" ignoring case. */
  function IsRemoteExecution(src: Sources): (r: bool)
    ensures r <==> ToLowerCase(GetExecutionMode(src)) == "remote"
  {
    EqualsIgnoreCaseIsLowerEqual("remote", GetExecutionMode(src));
    EqualsIgnoreCase("remote", GetExecutionMode(src))
  }

  /** The default mode "local" is not remote. */
  lemma LocalByDefault(src: Sources)
    requires forall v :: !Present(src, "execution.mode", v)
    ensures !IsRemoteExecution(src)
  {
    assert GetExecutionMode(src) == "local";
    LowerCaseUnchanged("local");
  }

  // ----------------------------------------------------------- integers

  /** An int setting: Integer.parseInt of the resolved text or of the default. */
  function GetInt(src: Sources, key: string, default: int): (r: Result<int, Exception>)
    ensures r.Ok? ==> IsInt32(r.value)
    ensures forall v :: Present(src, key, v) ==> r == ParseInt(v)
  {
    ParseInt(GetPropertyOr(src, key, DecimalString(default)))
  }

  /** Absent or empty keys give back the default, which Integer.parseInt reads back exactly. */
  lemma GetIntDefault(src: Sources, key: string, default: int)
    requires forall v :: !Present(src, key, v)
    requires IsInt32(default)
    ensures GetInt(src, key, default) == Ok(default)
  {
    ParseIntRoundTrip(default);
  }

  /** A configured decimal number is read back as that number. */
  lemma GetIntConfigured(src: Sources, key: string, default: int, n: int)
    requires Present(src, key, DecimalString(n)) && IsInt32(n)
    ensures GetInt(src, key, default) == Ok(n)
  {
    ParseIntRoundTrip(n);
  }

  /** getImplicitWait: the configured seconds, 10 when unset or empty. */
  function GetImplicitWait(src: Sources): (r: Result<int, Exception>)
    ensures forall v :: Present(src, "implicit.wait", v) ==> r == ParseInt(v)
    ensures (forall v :: !Present(src, "implicit.wait", v)) ==> r == Ok(IMPLICIT_WAIT)
  {
    ParseIntRoundTrip(IMPLICIT_WAIT);
    GetInt(src, "implicit.wait", IMPLICIT_WAIT)
  }

  /** getExplicitWait: the configured seconds, 20 when unset or empty. */
  function GetExplicitWait(src: Sources): (r: Result<int, Exception>)
    ensures forall v :: Present(src, "explicit.wait", v) ==> r == ParseInt(v)
    ensures (forall v :: !Present(src, "explicit.wait", v)) ==> r == Ok(EXPLICIT_WAIT)
  {
    ParseIntRoundTrip(EXPLICIT_WAIT);
    GetInt(src, "explicit.wait", EXPLICIT_WAIT)
  }

  /** getPageLoadTimeout: the configured seconds, 30 when unset or empty. */
  function GetPageLoadTimeout(src: Sources): (r: Result<int, Exception>)
    ensures forall v :: Present(src, "page.load.timeout", v) ==> r == ParseInt(v)
    ensures (forall v :: !Present(src, "page.load.timeout", v)) ==> r == Ok(PAGE_LOAD_TIMEOUT)
  {
    ParseIntRoundTrip(PAGE_LOAD_TIMEOUT);
    GetInt(src, "page.load.timeout", PAGE_LOAD_TIMEOUT)
  }

  /** getThreadCount: the configured thread count, 5 when unset or empty. */
  function GetThreadCount(src: Sources): (r: Result<int, Exception>)
    ensures forall v :: Present(src, "parallel.threads", v) ==> r == ParseInt(v)
    ensures (forall v :: !Present(src, "parallel.threads", v)) ==> r == Ok(PARALLEL_THREAD_COUNT)
  {
    ParseIntRoundTrip(PARALLEL_THREAD_COUNT);
    GetInt(src, "parallel.threads", PARALLEL_THREAD_COUNT)
  }

  /**
   * getRetryCount: 0 when "retry.enabled" equals "false" ignoring case,
   * otherwise Integer.parseInt of "retry.count" (default 1).
   */
  function GetRetryCount(src: Sources): (r: Result<int, Exception>)
    ensures ToLowerCase(GetPropertyOr(src, "retry.enabled", "true")) == "false" ==> r == Ok(0)
    ensures ToLowerCase(GetPropertyOr(src, "retry.enabled", "true")) != "false" ==>
              r == GetInt(src, "retry.count", MAX_RETRY_COUNT)
  {
    var enabled := GetPropertyOr(src, "retry.enabled", "true");
    EqualsIgnoreCaseIsLowerEqual("false", enabled);
    if EqualsIgnoreCase("false", enabled) then Ok(0)
    else GetInt(src, "retry.count", MAX_RETRY_COUNT)
  }

  /** Disabling retries forces a count of 0 whatever "retry.count" holds. */
  lemma RetryDisabledForcesZero(src: Sources, count: string)
    requires ToLowerCase(GetPropertyOr(src, "retry.enabled", "true")) == "false"
    ensures GetRetryCount(Sources(src.system, src.file["retry.count" := count])) == Ok(0)
  {
    var src' := Sources(src.system, src.file["retry.count" := count]);
    assert GetPropertyOr(src', "retry.enabled", "true") == GetPropertyOr(src, "retry.enabled", "true");
  }

  /** With nothing about retries configured, one retry is allowed. */
  lemma RetryCountDefault(src: Sources)
    requires forall v :: !Present(src, "retry.enabled", v)
    requires forall v :: !Present(src, "retry.count", v)
    ensures GetRetryCount(src) == Ok(1) && IsRetryEnabled(src)
  {
    GetIntDefault(src, "retry.count", MAX_RETRY_COUNT);
  }

  /**
   * The two getters read "retry.enabled" differently: a value such as "no"
   * turns isRetryEnabled off yet leaves getRetryCount at its configured count.
   */
  lemma RetryEnabledDisagreesWithCount()
    ensures var src := Sources(map[], map["retry.enabled" := "no", "retry.count" := "2"]);
            !IsRetryEnabled(src) && GetRetryCount(src) == Ok(2)
  {
    var src := Sources(map[], map["retry.enabled" := "no", "retry.count" := "2"]);
    assert GetPropertyOr(src, "retry.enabled", "true") == "no";
    LowerCaseUnchanged("no");
    assert GetPropertyOr(src, "retry.count", DecimalString(MAX_RETRY_COUNT)) == "2";
    assert "2" == DecimalString(2);
    ParseIntRoundTrip(2);
  }
}
