/**
 * ExtentReportManager: builds the single report of a run from
 * extent.properties. The report file name gets a timestamp inserted before
 * its extension, the Spark reporter settings are read with defaults, and
 * every "systeminfo." property becomes a system-information entry.
 * The report itself (ExtentReports) is a class with the entries that the
 * listener adds; rendering the HTML is not modelled.
 */
module Reports {
  import opened JavaText

  const SEPARATOR: char := '/'
  const SYSTEM_INFO_PREFIX: string := "systeminfo."
  const DOCUMENT_TITLE: string := "Automation Report"
  const REPORT_NAME: string := "Test Execution Results"

  const OUT_KEY: string := "extent.reporter.spark.out"
  const STAMP_KEY: string := "extent.reporter.timestamp.format"
  const TITLE_KEY: string := "extent.reporter.spark.config.documentTitle"
  const NAME_KEY: string := "extent.reporter.spark.config.reportName"
  const THEME_KEY: string := "extent.reporter.spark.config.theme"
  const TIME_FORMAT_KEY: string := "extent.reporter.spark.config.timeStampFormat"
  const ENCODING_KEY: string := "extent.reporter.spark.config.encoding"
  const OFFLINE_KEY: string := "extent.reporter.spark.config.offline"
  const TIMELINE_KEY: string := "extent.reporter.spark.config.enableTimeline"
  const CSS_KEY: string := "extent.reporter.spark.config.css"
  const JS_KEY: string := "extent.reporter.spark.config.js"

  /** FrameworkConstants.REPORTS_PATH for the given user.dir. */
  function ReportsPath(userDir: string): string {
    userDir + [SEPARATOR] + "test-output" + [SEPARATOR] + "reports"
  }

  /** FrameworkConstants.EXTENT_REPORT_PATH for the given user.dir. */
  function DefaultReportPath(userDir: string): string {
    ReportsPath(userDir) + [SEPARATOR] + "ExtentReport.html"
  }

  // ------------------------------------------------ java.io.File (Unix)

  predicate NoDoubleSlash(p: string) {
    forall i :: 0 <= i < |p| - 1 ==> !(p[i] == SEPARATOR && p[i + 1] == SEPARATOR)
  }

  /** Collapses every run of separators into one, as File's normalisation does. */
  function CollapseSlashes(p: string): string
    decreases |p|
  {
    if |p| <= 1 then p
    else if p[0] == SEPARATOR && p[1] == SEPARATOR then CollapseSlashes(p[1..])
    else [p[0]] + CollapseSlashes(p[1..])
  }

  lemma {:induction false} CollapseNormal(p: string)
    requires NoDoubleSlash(p)
    ensures CollapseSlashes(p) == p
    decreases |p|
  {
    if |p| > 1 {
      assert !(p[0] == SEPARATOR && p[1] == SEPARATOR);
      CollapseNormal(p[1..]);
    }
  }

  /** The path java.io.File keeps: no repeated separators and no trailing one. */
  function Normalize(p: string): string {
    var c := CollapseSlashes(p);
    if |c| > 1 && c[|c| - 1] == SEPARATOR then c[..|c| - 1] else c
  }

  function PrefixLength(p: string): nat {
    if |p| > 0 && p[0] == SEPARATOR then 1 else 0
  }

  /** File.getParent of a normalised path; None stands for null. */
  function FileParent(p: string): Option<string> {
    var index := LastIndexOf(p, SEPARATOR);
    var prefix := PrefixLength(p);
    if index < prefix then
      (if prefix > 0 && |p| > prefix then Some(p[..prefix]) else None)
    else Some(p[..index])
  }

  /** File.getName of a normalised path. */
  function FileName(p: string): string {
    var index := LastIndexOf(p, SEPARATOR);
    var prefix := PrefixLength(p);
    if index < prefix then p[prefix..] else p[index + 1..]
  }

  /** A directory written as java.io.File keeps it, and not the root alone. */
  predicate PlainDir(dir: string) {
    |dir| > 0 && NoDoubleSlash(dir) && dir[|dir| - 1] != SEPARATOR
  }

  /** The position of the last '/' in dir + "/" + tail when tail holds none. */
  lemma {:induction false} LastSeparator(dir: string, tail: string)
    requires SEPARATOR !in tail
    ensures LastIndexOf(dir + [SEPARATOR] + tail, SEPARATOR) == |dir|
  {
    var p := dir + [SEPARATOR] + tail;
    forall k | |dir| < k < |p|
      ensures p[k] != SEPARATOR
    {
      assert p[k] == tail[k - |dir| - 1];
    }
    LastIndexOfAt(p, SEPARATOR, |dir|);
  }

  /** A plain directory joined with a plain name is a plain directory again. */
  lemma {:induction false} JoinIsPlain(dir: string, name: string)
    requires PlainDir(dir) && |name| > 0 && SEPARATOR !in name
    ensures PlainDir(dir + [SEPARATOR] + name)
  {
    var p := dir + [SEPARATOR] + name;
    forall i | 0 <= i < |p| - 1
      ensures !(p[i] == SEPARATOR && p[i + 1] == SEPARATOR)
    {
      if i < |dir| - 1 {
        assert p[i] == dir[i] && p[i + 1] == dir[i + 1];
      } else if i == |dir| - 1 {
        assert p[i] == dir[|dir| - 1];
      } else {
        assert p[i + 1] == name[i - |dir|];
      }
    }
    assert p[|p| - 1] == name[|name| - 1];
  }

  /** Such a path is already in the form java.io.File keeps. */
  lemma JoinIsNormal(dir: string, name: string)
    requires PlainDir(dir) && |name| > 0 && SEPARATOR !in name
    ensures Normalize(dir + [SEPARATOR] + name) == dir + [SEPARATOR] + name
  {
    JoinIsPlain(dir, name);
    CollapseNormal(dir + [SEPARATOR] + name);
  }

  /** getParent and getName split dir + "/" + name back into its parts. */
  lemma {:induction false} SplitJoin(dir: string, name: string)
    requires PlainDir(dir) && SEPARATOR !in name
    ensures FileParent(dir + [SEPARATOR] + name) == Some(dir)
    ensures FileName(dir + [SEPARATOR] + name) == name
  {
    var p := dir + [SEPARATOR] + name;
    LastSeparator(dir, name);
    assert PrefixLength(p) <= 1 <= |dir|;
    assert p[..|dir|] == dir;
    assert p[|dir| + 1..] == name;
  }

  /** The last '.' of stem + ext is the one that starts ext. */
  lemma {:induction false} LastDot(stem: string, ext: string)
    requires |ext| > 0 && ext[0] == '.' && '.' !in ext[1..]
    ensures LastIndexOf(stem + ext, '.') == |stem|
  {
    var name := stem + ext;
    assert name[|stem|] == '.';
    assert forall k :: |stem| < k < |name| ==> name[k] == ext[1..][k - |stem| - 1];
  }

  /**
   * generateTimestampedReportPath: directory + "/" + stem + "_" + timestamp +
   * extension, where the file name is split at its last '.' and the
   * extension keeps the dot. A name without a dot throws from substring; a
   * path without a directory gets Java's "null" in front.
   */
  function TimestampedReportPath(basePath: string, timestamp: string): (r: Result<string, Exception>)
    ensures r.Err? <==> '.' !in FileName(Normalize(basePath))
    ensures r.Err? ==> r.error == IndexOutOfBounds
  {
    var path := Normalize(basePath);
    var name := FileName(path);
    var dot := LastIndexOf(name, '.');
    if dot < 0 then Err(IndexOutOfBounds)
    else
      assert name[dot] == '.';
      Ok(FileParent(path).GetOr("null") + [SEPARATOR] + name[..dot] + "_" + timestamp + name[dot..])
  }

  /**
   * For a path dir/stem.ext whose directory is written normally, the
   * timestamp lands between the stem and the extension, and nothing else
   * changes; the stem may itself contain dots.
   */
  lemma {:induction false} TimestampedPathShape(dir: string, stem: string, ext: string, timestamp: string)
    requires PlainDir(dir)
    requires SEPARATOR !in stem && SEPARATOR !in ext
    requires |ext| > 0 && ext[0] == '.' && '.' !in ext[1..]
    ensures TimestampedReportPath(dir + [SEPARATOR] + stem + ext, timestamp)
         == Ok(dir + [SEPARATOR] + stem + "_" + timestamp + ext)
  {
    var name := stem + ext;
    assert dir + [SEPARATOR] + name == dir + [SEPARATOR] + stem + ext;
    assert SEPARATOR !in name;
    JoinIsNormal(dir, name);
    SplitJoin(dir, name);
    LastDot(stem, ext);
    assert name[..|stem|] == stem && name[|stem|..] == ext;
  }

  /** A file name without a dot cannot be stamped. */
  lemma NoExtensionFails(dir: string, name: string, timestamp: string)
    requires PlainDir(dir) && |name| > 0 && SEPARATOR !in name && '.' !in name
    ensures TimestampedReportPath(dir + [SEPARATOR] + name, timestamp) == Err(IndexOutOfBounds)
  {
    JoinIsNormal(dir, name);
    SplitJoin(dir, name);
  }

  /**
   * A bare file name has no parent: getParent returns null and the string
   * concatenation puts the report under a directory called "null".
   */
  lemma BareNameGoesUnderNull(stem: string, ext: string, timestamp: string)
    requires SEPARATOR !in stem && SEPARATOR !in ext
    requires |ext| > 0 && ext[0] == '.' && '.' !in ext[1..]
    ensures TimestampedReportPath(stem + ext, timestamp)
         == Ok("null" + [SEPARATOR] + stem + "_" + timestamp + ext)
  {
    var name := stem + ext;
    assert SEPARATOR !in name;
    CollapseNormal(name);
    assert name[|name| - 1] == ext[|ext| - 1];
    assert Normalize(name) == name;
    assert LastIndexOf(name, SEPARATOR) == -1;
    assert FileName(name) == name[0..] == name;
    LastDot(stem, ext);
    assert name[..|stem|] == stem && name[|stem|..] == ext;
  }

  /** The reports directory under a plain user.dir is plain. */
  lemma {:induction false} ReportsPathPlain(userDir: string)
    requires PlainDir(userDir)
    ensures PlainDir(ReportsPath(userDir))
  {
    JoinIsPlain(userDir, "test-output");
    JoinIsPlain(userDir + [SEPARATOR] + "test-output", "reports");
  }

  /** With the default report path the file becomes reports/ExtentReport_<timestamp>.html. */
  lemma {:induction false} DefaultTimestampedPath(userDir: string, timestamp: string)
    requires PlainDir(userDir)
    ensures TimestampedReportPath(DefaultReportPath(userDir), timestamp)
         == Ok(ReportsPath(userDir) + [SEPARATOR] + "ExtentReport" + "_" + timestamp + ".html")
  {
    var dir := ReportsPath(userDir);
    ReportsPathPlain(userDir);
    var stem, ext := "ExtentReport", ".html";
    assert SEPARATOR !in stem && SEPARATOR !in ext && '.' !in ext[1..];
    TimestampedPathShape(dir, stem, ext, timestamp);
    assert DefaultReportPath(userDir) == dir + [SEPARATOR] + stem + ext;
  }

  // ------------------------------------------------------- properties

  /** A missing extent.properties is replaced by empty properties. */
  function LoadProperties(file: Option<map<string, string>>): (r: map<string, string>)
    ensures file.Some? ==> r == file.value
    ensures file.None? ==> r == map[]
  {
    file.GetOr(map[])
  }

  /** Properties.getProperty(key): null when the key is absent. */
  function Lookup(props: map<string, string>, key: string): (r: Option<string>)
    ensures r.Some? <==> key in props
    ensures r.Some? ==> r.value == props[key]
  {
    if key in props then Some(props[key]) else None
  }

  /** Properties.getProperty(key, default): the default only for an absent key; "" stays "". */
  function GetProperty(props: map<string, string>, key: string, default: string): (r: string)
    ensures key in props ==> r == props[key]
    ensures key !in props ==> r == default
  {
    Lookup(props, key).GetOr(default)
  }

  datatype Theme = Standard | Dark

  /** The settings configureSparkReporter applies; css and js stay unset as None. */
  datatype SparkConfig = SparkConfig(
    documentTitle: string,
    reportName: string,
    theme: Theme,
    timeStampFormat: string,
    encoding: string,
    offline: bool,
    timeline: bool,
    css: Option<string>,
    js: Option<string>)

  /** A path setting that is applied only when present and non-empty. */
  function OptionalPath(props: map<string, string>, key: string): (r: Option<string>)
    ensures r.Some? <==> key in props && props[key] != ""
    ensures r.Some? ==> r.value == props[key]
  {
    match Lookup(props, key)
    case Some(p) => if p != "" then Some(p) else None
    case None => None
  }

  /** configureSparkReporter. */
  function ConfigureSpark(props: map<string, string>): (c: SparkConfig)
    ensures c.theme == Dark <==> ToLowerCase(GetProperty(props, THEME_KEY, "standard")) == "dark"
    ensures c.offline <==> ToLowerCase(GetProperty(props, OFFLINE_KEY, "false")) == "true"
    ensures c.timeline <==> ToLowerCase(GetProperty(props, TIMELINE_KEY, "true")) == "true"
    ensures c.css.Some? <==> CSS_KEY in props && props[CSS_KEY] != ""
    ensures c.js.Some? <==> JS_KEY in props && props[JS_KEY] != ""
    ensures c.css == OptionalPath(props, CSS_KEY) && c.js == OptionalPath(props, JS_KEY)
    ensures c.timeStampFormat == GetProperty(props, TIME_FORMAT_KEY, "dd MMM yyyy HH:mm:ss")
    ensures c.encoding == GetProperty(props, ENCODING_KEY, "UTF-8")
    ensures c.documentTitle == GetProperty(props, TITLE_KEY, DOCUMENT_TITLE)
    ensures c.reportName == GetProperty(props, NAME_KEY, REPORT_NAME)
  {
    var theme := GetProperty(props, THEME_KEY, "standard");
    EqualsIgnoreCaseIsLowerEqual("dark", theme);
    SparkConfig(
      GetProperty(props, TITLE_KEY, DOCUMENT_TITLE),
      GetProperty(props, NAME_KEY, REPORT_NAME),
      if EqualsIgnoreCase("dark", theme) then Dark else Standard,
      GetProperty(props, TIME_FORMAT_KEY, "dd MMM yyyy HH:mm:ss"),
      GetProperty(props, ENCODING_KEY, "UTF-8"),
      ParseBoolean(GetProperty(props, OFFLINE_KEY, "false")),
      ParseBoolean(GetProperty(props, TIMELINE_KEY, "true")),
      OptionalPath(props, CSS_KEY),
      OptionalPath(props, JS_KEY))
  }

  /** Without extent.properties every setting takes its default. */
  lemma MissingFileGivesDefaults()
    ensures ConfigureSpark(LoadProperties(None))
         == SparkConfig(DOCUMENT_TITLE, REPORT_NAME, Standard, "dd MMM yyyy HH:mm:ss", "UTF-8",
                        false, true, None, None)
  {
    LowerCaseUnchanged("standard");
    LowerCaseUnchanged("false");
    LowerCaseUnchanged("true");
  }

  /** The system-information name of a "systeminfo." key: every copy of the prefix removed. */
  function InfoName(key: string): string {
    Replace(key, SYSTEM_INFO_PREFIX, "")
  }

  /** A key with a single copy of the prefix is named by what follows it. */
  lemma InfoNameStripsPrefix(rest: string)
    requires !Occurs(rest, SYSTEM_INFO_PREFIX)
    ensures InfoName(SYSTEM_INFO_PREFIX + rest) == rest
  {
    ReplaceLeadingOnly(SYSTEM_INFO_PREFIX, rest);
  }

  /** The entries made for the given keys, in the given order. */
  function InfoEntries(order: seq<string>, props: map<string, string>): (r: seq<(string, string)>)
    requires forall k :: k in order ==> k in props
    ensures |r| == |order|
    ensures forall i :: 0 <= i < |order| ==> r[i] == (InfoName(order[i]), props[order[i]])
  {
    seq(|order|, i requires 0 <= i < |order| => (InfoName(order[i]), props[order[i]]))
  }

  // ------------------------------------------------------- the report

  datatype Color = Green | Red | Yellow
  datatype LogStatus = Info | Pass | Fail | Skip | Warning

  /** What a log line carries: plain text, a coloured label, or an exception. */
  datatype Detail = Text(text: string) | Label(markup: string, color: Color) | Thrown(error: Throwable)

  datatype LogEvent = LogEvent(status: LogStatus, detail: Detail)

  /** One ExtentTest: its name, description, categories, log and attached screenshots. */
  datatype Entry = Entry(
    name: string,
    description: Option<string>,
    categories: seq<string>,
    log: seq<LogEvent>,
    media: seq<string>)

  /** ExtentReports: what the run records until it is flushed. */
  class ExtentReports {
    const reportPath: string
    const spark: SparkConfig
    var systemInfo: seq<(string, string)>
    var tests: seq<Entry>
    var flushCount: nat

    constructor (reportPath: string, spark: SparkConfig)
      ensures this.reportPath == reportPath && this.spark == spark
      ensures systemInfo == [] && tests == [] && flushCount == 0
    {
      this.reportPath := reportPath;
      this.spark := spark;
      systemInfo := [];
      tests := [];
      flushCount := 0;
    }

    method SetSystemInfo(name: string, value: string)
      modifies this`systemInfo
      ensures systemInfo == old(systemInfo) + [(name, value)]
    {
      systemInfo := systemInfo + [(name, value)];
    }

    /** createTest: a new entry at the end; its index identifies it. */
    method CreateTest(name: string, description: Option<string>) returns (index: nat)
      modifies this`tests
      ensures index == |old(tests)|
      ensures tests == old(tests) + [Entry(name, description, [], [], [])]
    {
      index := |tests|;
      tests := tests + [Entry(name, description, [], [], [])];
    }

    /** Replaces the entry at index, as the listener's calls on an ExtentTest do. */
    method Update(index: nat, e: Entry)
      requires index < |tests|
      modifies this`tests
      ensures tests == old(tests)[index := e]
    {
      tests := tests[index := e];
    }

    method Flush()
      modifies this`flushCount
      ensures flushCount == old(flushCount) + 1
    {
      flushCount := flushCount + 1;
    }
  }

  /** setSystemInformation: one entry per "systeminfo." key, then the Java version and user.dir. */
  method SetSystemInformation(report: ExtentReports, props: map<string, string>,
                              javaVersion: string, userDir: string)
    returns (ghost order: seq<string>)
    modifies report`systemInfo
    ensures InfoOrder(order, props)
    ensures report.systemInfo == old(report.systemInfo) + InfoEntries(order, props)
                                 + [("Java Version", javaVersion), ("User Directory", userDir)]
  {
    var remaining := props.Keys;
    order := [];
    while remaining != {}
      invariant remaining <= props.Keys
      invariant forall k :: k in order <==> k in props && k !in remaining && SYSTEM_INFO_PREFIX <= k
      invariant forall i, j :: 0 <= i < j < |order| ==> order[i] != order[j]
      invariant report.systemInfo == old(report.systemInfo) + InfoEntries(order, props)
      decreases remaining
    {
      var key :| key in remaining;
      if SYSTEM_INFO_PREFIX <= key {
        report.SetSystemInfo(InfoName(key), props[key]);
        assert InfoEntries(order + [key], props) == InfoEntries(order, props) + [(InfoName(key), props[key])];
        order := order + [key];
      }
      remaining := remaining - {key};
    }
    report.SetSystemInfo("Java Version", javaVersion);
    report.SetSystemInfo("User Directory", userDir);
  }

  /** The SimpleDateFormat pattern of the timestamp. */
  function StampPattern(props: map<string, string>): string {
    GetProperty(props, STAMP_KEY, "dd-MM-yyyy_HH-mm-ss")
  }

  /** The report path before it is stamped. */
  function BaseReportPath(props: map<string, string>, userDir: string): string {
    GetProperty(props, OUT_KEY, DefaultReportPath(userDir))
  }

  /**
   * The report file a new instance writes to. `now` formats the current time
   * with a SimpleDateFormat pattern, or fails as the SimpleDateFormat
   * constructor does on a pattern it rejects; that happens before the path
   * is split.
   */
  function ReportFile(props: map<string, string>, userDir: string,
                      now: string -> Result<string, Exception>): (r: Result<string, Exception>)
    ensures now(StampPattern(props)).Err? ==> r == Err(now(StampPattern(props)).error)
    ensures r.Err? <==>
              now(StampPattern(props)).Err? || '.' !in FileName(Normalize(BaseReportPath(props, userDir)))
    ensures now(StampPattern(props)).Ok? ==>
              r == TimestampedReportPath(BaseReportPath(props, userDir), now(StampPattern(props)).value)
  {
    match now(StampPattern(props))
    case Err(e) => Err(e)
    case Ok(timestamp) => TimestampedReportPath(BaseReportPath(props, userDir), timestamp)
  }

  /**
   * Without extent.properties the report lands in the reports directory
   * under user.dir, stamped with the default pattern.
   */
  lemma DefaultReportFile(userDir: string, now: string -> Result<string, Exception>, timestamp: string)
    requires PlainDir(userDir)
    requires now("dd-MM-yyyy_HH-mm-ss") == Ok(timestamp)
    ensures ReportFile(LoadProperties(None), userDir, now)
         == Ok(ReportsPath(userDir) + [SEPARATOR] + "ExtentReport_" + timestamp + ".html")
  {
    var props := LoadProperties(None);
    assert StampPattern(props) == "dd-MM-yyyy_HH-mm-ss";
    assert BaseReportPath(props, userDir) == DefaultReportPath(userDir);
    assert ReportFile(props, userDir, now) == TimestampedReportPath(DefaultReportPath(userDir), timestamp);
    DefaultTimestampedPath(userDir, timestamp);
    assert ReportsPath(userDir) + [SEPARATOR] + "ExtentReport" + "_" + timestamp + ".html"
        == ReportsPath(userDir) + [SEPARATOR] + "ExtentReport_" + timestamp + ".html";
  }

  /** One entry per "systeminfo." key, each key once, in the order `order`. */
  ghost predicate InfoOrder(order: seq<string>, props: map<string, string>) {
    (forall k :: k in order <==> k in props && SYSTEM_INFO_PREFIX <= k) &&
    (forall i, j :: 0 <= i < j < |order| ==> order[i] != order[j])
  }

  /** What setSystemInformation leaves in a new report, for some order of the keys. */
  ghost predicate IsSystemInfo(info: seq<(string, string)>, props: map<string, string>,
                               javaVersion: string, userDir: string) {
    exists order :: InfoOrder(order, props) &&
      info == InfoEntries(order, props) + [("Java Version", javaVersion), ("User Directory", userDir)]
  }

  /** The keys in the order setSystemInformation visited them witness IsSystemInfo. */
  lemma SystemInfoWitness(order: seq<string>, info: seq<(string, string)>, props: map<string, string>,
                          javaVersion: string, userDir: string)
    requires InfoOrder(order, props)
    requires info == [] + InfoEntries(order, props) + [("Java Version", javaVersion), ("User Directory", userDir)]
    ensures IsSystemInfo(info, props, javaVersion, userDir)
  {
    assert [] + InfoEntries(order, props) == InfoEntries(order, props);
  }

  /**
   * The static state of ExtentReportManager: the lazily created report and
   * the properties it was built from.
   */
  class ExtentReportManager {
    var extent: ExtentReports?
    var properties: map<string, string>

    constructor ()
      ensures extent == null && properties == map[]
    {
      extent := null;
      properties := map[];
    }

    /**
     * createInstance: loads extent.properties and builds the report with the
     * stamped path, the Spark settings and the system information. If the
     * path cannot be stamped the exception escapes and no report is set.
     */
    method CreateInstance(file: Option<map<string, string>>, userDir: string,
                          now: string -> Result<string, Exception>, javaVersion: string)
      returns (r: Result<ExtentReports, Exception>)
      modifies this
      ensures properties == LoadProperties(file)
      ensures r.Ok? <==> ReportFile(properties, userDir, now).Ok?
      ensures r.Err? ==> extent == old(extent) && r.error == ReportFile(properties, userDir, now).error
      ensures r.Ok? ==>
                fresh(r.value) && extent == r.value &&
                r.value.reportPath == ReportFile(properties, userDir, now).value &&
                r.value.spark == ConfigureSpark(properties) &&
                r.value.tests == [] && r.value.flushCount == 0 &&
                IsSystemInfo(r.value.systemInfo, properties, javaVersion, userDir)
    {
      properties := LoadProperties(file);
      var path := ReportFile(properties, userDir, now);
      if path.Err? {
        return Err(path.error);
      }
      var report := new ExtentReports(path.value, ConfigureSpark(properties));
      extent := report;
      ghost var order := SetSystemInformation(report, properties, javaVersion, userDir);
      SystemInfoWitness(order, report.systemInfo, properties, javaVersion, userDir);
      r := Ok(report);
    }

    /**
     * getInstance: the existing report, or a new one from createInstance
     * when there is none yet; every later call returns that same report.
     */
    method GetInstance(file: Option<map<string, string>>, userDir: string,
                       now: string -> Result<string, Exception>, javaVersion: string)
      returns (r: Result<ExtentReports, Exception>)
      modifies this
      ensures old(extent) != null ==>
                r.Ok? && r.value == old(extent) && extent == old(extent) && properties == old(properties)
      ensures old(extent) == null ==> properties == LoadProperties(file)
      ensures old(extent) == null ==> (r.Ok? <==> ReportFile(properties, userDir, now).Ok?)
      ensures old(extent) == null && r.Err? ==>
                extent == null && r.error == ReportFile(properties, userDir, now).error
      ensures old(extent) == null && r.Ok? ==>
                fresh(r.value) && extent == r.value &&
                r.value.reportPath == ReportFile(properties, userDir, now).value &&
                r.value.spark == ConfigureSpark(properties) &&
                r.value.tests == [] && r.value.flushCount == 0 &&
                IsSystemInfo(r.value.systemInfo, properties, javaVersion, userDir)
    {
      if extent == null {
        r := CreateInstance(file, userDir, now, javaVersion);
      } else {
        r := Ok(extent);
      }
    }

    /** flush: writes the report only if it has been created. */
    method Flush()
      modifies extent
      ensures extent != null ==> extent.flushCount == old(extent.flushCount) + 1
      ensures extent != null ==> extent.tests == old(extent.tests) && extent.systemInfo == old(extent.systemInfo)
    {
      if extent != null {
        extent.Flush();
      }
    }
  }

  /**
   * An example run, not a general property: getInstance hands out the same
   * report on a later call even when the properties differ.
   */
  method SingletonScenario(userDir: string, now: string -> Result<string, Exception>)
  {
    var m := new ExtentReportManager();
    m.Flush();
    assert m.extent == null;
    var first := m.GetInstance(None, userDir, now, "21");
    if first.Ok? {
      var second := m.GetInstance(Some(map[OUT_KEY := "x"]), userDir, now, "17");
      assert second == first;
    }
  }
}
