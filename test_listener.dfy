/**
 * TestListener: turns TestNG's test events into report entries. The report
 * is the shared ExtentReports instance; each worker thread has a current
 * entry (the ThreadLocal<ExtentTest>), modelled as a map from worker id to
 * the entry's index in the report. Screenshot capture goes through the
 * reflective driver lookup and ScreenshotUtil, both given as inputs, and
 * never changes what was logged.
 */
module Listener {
  import opened JavaText
  import Config
  import Reports
  import Drivers

  /** The outcome of one reflective access: it throws, or it yields a driver or null. */
  datatype Reflect = Fails | Yields(driver: Option<Drivers.Handle>)

  /** The test class instance as reflection sees it: getDriver() and the driver field. */
  datatype TestInstance = TestInstance(getDriver: Reflect, driverField: Reflect)

  /** What ScreenshotUtil.captureScreenshot does: a saved path, null, or an exception. */
  datatype Shot = Saved(path: string) | NoPath | Throws

  /** The parts of ITestResult the listener reads. */
  datatype ResultView = ResultView(
    methodName: string,
    description: Option<string>,
    groups: seq<string>,
    throwable: Option<Throwable>,
    instance: Option<TestInstance>)

  /**
   * getDriverFromTestInstance: the getDriver() method first, and its result
   * even when it is null; the driver field only when the method call throws;
   * null when both throw or there is no instance.
   */
  function DriverFromTestInstance(instance: Option<TestInstance>): (r: Option<Drivers.Handle>)
    ensures instance.None? ==> r.None?
    ensures instance.Some? && instance.value.getDriver.Yields? ==> r == instance.value.getDriver.driver
    ensures instance.Some? && instance.value.getDriver.Fails? && instance.value.driverField.Yields? ==>
              r == instance.value.driverField.driver
    ensures r.Some? ==>
              (instance.Some? &&
               (instance.value.getDriver == Yields(r) ||
                (instance.value.getDriver.Fails? && instance.value.driverField == Yields(r))))
  {
    match instance
    case None => None
    case Some(t) =>
      match t.getDriver
      case Yields(d) => d
      case Fails =>
        match t.driverField
        case Yields(d) => d
        case Fails => None
  }

  /** A getDriver() that returns null hides a driver held in the field. */
  lemma NullFromMethodHidesField(h: Drivers.Handle)
    ensures DriverFromTestInstance(Some(TestInstance(Yields(None), Yields(Some(h))))) == None
    ensures DriverFromTestInstance(Some(TestInstance(Fails, Yields(Some(h))))) == Some(h)
  {
  }

  /**
   * shouldCaptureScreenshotOnPass: fixed to false, so only failures are
   * captured; the configuration is not consulted.
   */
  function ShouldCaptureScreenshotOnPass(): (r: bool)
    ensures !r
  {
    false
  }

  /** screenshot.on.pass = true is read by ConfigReader but has no effect on the listener. */
  lemma PassCaptureIgnoresConfig()
    ensures var src := Config.Sources(map[], map["screenshot.on.pass" := "true"]);
            Config.CaptureScreenshotOnPass(src) && !ShouldCaptureScreenshotOnPass()
  {
    var src := Config.Sources(map[], map["screenshot.on.pass" := "true"]);
    assert Config.Present(src, "screenshot.on.pass", "true");
    LowerCaseUnchanged("true");
  }

  /**
   * The screenshots captureScreenshot attaches for a result and a status tag:
   * at most one, only when a driver was found, and exactly the one saved
   * under the name <method>_<status>; a null path or an exception attaches
   * nothing.
   */
  function Captured(result: ResultView, shoot: (Drivers.Handle, string) -> Shot, status: string): (r: seq<string>)
    ensures |r| <= 1
    ensures DriverFromTestInstance(result.instance).None? ==> r == []
    ensures |r| == 1 <==>
              DriverFromTestInstance(result.instance).Some? &&
              shoot(DriverFromTestInstance(result.instance).value, result.methodName + "_" + status).Saved?
    ensures |r| == 1 ==>
              shoot(DriverFromTestInstance(result.instance).value, result.methodName + "_" + status) == Saved(r[0])
  {
    match DriverFromTestInstance(result.instance)
    case None => []
    case Some(d) =>
      match shoot(d, result.methodName + "_" + status)
      case Saved(p) => [p]
      case NoPath => []
      case Throws => []
  }

  /** The description createTest receives: only a non-null, non-empty one. */
  function Description(result: ResultView): (d: Option<string>)
    ensures d.Some? <==> result.description.Some? && result.description.value != ""
    ensures d.Some? ==> d == result.description
  {
    match result.description
    case Some(text) => if text != "" then Some(text) else None
    case None => None
  }

  /** The entry onTestStart leaves behind. */
  function StartedEntry(result: ResultView): Reports.Entry {
    Reports.Entry(result.methodName, Description(result), result.groups,
                  [Reports.LogEvent(Reports.Info, Reports.Text("Test Started: " + result.methodName))], [])
  }

  /** The exception line added by fail(throwable) or skip(throwable), if there is a throwable. */
  function ThrownEvents(status: Reports.LogStatus, throwable: Option<Throwable>): seq<Reports.LogEvent> {
    match throwable
    case Some(t) => [Reports.LogEvent(status, Reports.Thrown(t))]
    case None => []
  }

  function PassEvents(result: ResultView): seq<Reports.LogEvent> {
    [Reports.LogEvent(Reports.Pass, Reports.Label("TEST PASSED: " + result.methodName, Reports.Green))]
  }

  function FailureEvents(result: ResultView): seq<Reports.LogEvent> {
    [Reports.LogEvent(Reports.Fail, Reports.Label("TEST FAILED: " + result.methodName, Reports.Red))]
      + ThrownEvents(Reports.Fail, result.throwable)
  }

  function SkipEvents(result: ResultView): seq<Reports.LogEvent> {
    [Reports.LogEvent(Reports.Skip, Reports.Label("TEST SKIPPED: " + result.methodName, Reports.Yellow))]
      + ThrownEvents(Reports.Skip, result.throwable)
  }

  function WarningEvents(result: ResultView): seq<Reports.LogEvent> {
    [Reports.LogEvent(Reports.Warning, Reports.Text("Test failed but within success percentage: " + result.methodName))]
  }

  /**
   * A failure or a skip logs its label first, then an exception line exactly
   * when the result carries a throwable, with the same status.
   */
  lemma OutcomeEventsShape(result: ResultView)
    ensures |FailureEvents(result)| == (if result.throwable.Some? then 2 else 1)
    ensures FailureEvents(result)[0].detail == Reports.Label("TEST FAILED: " + result.methodName, Reports.Red)
    ensures forall e :: e in FailureEvents(result) ==> e.status == Reports.Fail
    ensures (exists e :: e in FailureEvents(result) && e.detail.Thrown?) <==> result.throwable.Some?
    ensures |SkipEvents(result)| == (if result.throwable.Some? then 2 else 1)
    ensures forall e :: e in SkipEvents(result) ==> e.status == Reports.Skip
    ensures (exists e :: e in SkipEvents(result) && e.detail.Thrown?) <==> result.throwable.Some?
  {
    if result.throwable.Some? {
      assert FailureEvents(result)[1].detail.Thrown?;
      assert SkipEvents(result)[1].detail.Thrown?;
    }
  }

  /** A success is logged with a green PASS label and nothing else. */
  lemma PassNeverThrown(result: ResultView)
    ensures |PassEvents(result)| == 1 && PassEvents(result)[0].status == Reports.Pass
    ensures forall e :: e in PassEvents(result) ==> !e.detail.Thrown?
    ensures !ShouldCaptureScreenshotOnPass()
  {
  }

  /** The entry after its log has been extended. */
  function Logged(e: Reports.Entry, events: seq<Reports.LogEvent>): (r: Reports.Entry)
    ensures r.log == e.log + events
    ensures r.name == e.name && r.description == e.description
    ensures r.categories == e.categories && r.media == e.media
  {
    e.(log := e.log + events)
  }

  /** The state behind TestListener's two static fields. */
  class TestListener {
    const manager: Reports.ExtentReportManager
    var extent: Reports.ExtentReports?
    var current: map<Drivers.WorkerId, nat>

    /**
     * The report, once known, is the manager's; workers have a current
     * entry only in a known report, and it is an entry of that report.
     */
    ghost predicate Valid()
      reads this, extent, manager
    {
      (extent == null ==> current == map[]) &&
      (extent != null ==> extent == manager.extent &&
                          forall w :: w in current ==> current[w] < |extent.tests|)
    }

    /** The report as a frame: empty while there is none. */
    function Report(): set<Reports.ExtentReports>
      reads this
    {
      if extent == null then {} else {extent}
    }

    constructor (manager: Reports.ExtentReportManager)
      ensures this.manager == manager && extent == null && current == map[]
      ensures Valid()
    {
      this.manager := manager;
      extent := null;
      current := map[];
    }

    /** onStart: takes the manager's report; an exception from getInstance escapes. */
    method OnStart(file: Option<map<string, string>>, userDir: string,
                   now: string -> Result<string, Exception>, javaVersion: string)
      returns (r: Result<(), Exception>)
      requires Valid()
      modifies this`extent, manager
      ensures Valid()
      ensures old(extent) != null ==> r.Ok? && extent == old(extent)
      ensures r.Ok? ==> extent != null && extent == manager.extent
      ensures r.Ok? ==> extent == old(manager.extent) || fresh(extent)
      ensures r.Ok? && old(manager.extent) == null ==> extent.tests == [] && extent.flushCount == 0
      ensures r.Err? ==> extent == null
      ensures old(manager.extent) != null ==> r.Ok? && extent == old(manager.extent)
      ensures old(manager.extent) == null ==>
                manager.properties == Reports.LoadProperties(file) &&
                (r.Ok? <==> Reports.ReportFile(manager.properties, userDir, now).Ok?)
      ensures old(manager.extent) == null && r.Err? ==>
                r.error == Reports.ReportFile(manager.properties, userDir, now).error
    {
      var got := manager.GetInstance(file, userDir, now, javaVersion);
      match got
      case Ok(report) =>
        extent := report;
        r := Ok(());
      case Err(e) =>
        r := Err(e);
    }

    /**
     * onTestStart: one new entry, bound as the worker's current test, with
     * one category per group in group order and a "Test Started" line.
     * Without a report createTest dereferences null.
     */
    method OnTestStart(w: Drivers.WorkerId, result: ResultView) returns (r: Result<(), Exception>)
      requires Valid()
      modifies this`current, Report()`tests
      ensures Valid()
      ensures old(extent) == null ==> r == Err(NullPointer) && current == old(current)
      ensures extent != null ==>
                r.Ok? &&
                extent.tests == old(extent.tests) + [StartedEntry(result)] &&
                current == old(current)[w := |old(extent.tests)|]
    {
      if extent == null {
        return Err(NullPointer);
      }
      var index := extent.CreateTest(result.methodName, Description(result));
      current := current[w := index];
      var i := 0;
      while i < |result.groups|
        invariant 0 <= i <= |result.groups|
        invariant extent != null && index == |old(extent.tests)|
        invariant current == old(current)[w := index]
        invariant extent.tests ==
                    old(extent.tests) + [Reports.Entry(result.methodName, Description(result), result.groups[..i], [], [])]
      {
        var e := extent.tests[index];
        assert result.groups[..i + 1] == result.groups[..i] + [result.groups[i]];
        extent.Update(index, e.(categories := e.categories + [result.groups[i]]));
        i := i + 1;
      }
      assert result.groups[..i] == result.groups;
      var e := extent.tests[index];
      var started := [Reports.LogEvent(Reports.Info, Reports.Text("Test Started: " + result.methodName))];
      assert e.log + started == started;
      extent.Update(index, Logged(e, started));
      assert Logged(e, started) == StartedEntry(result);
      r := Ok(());
    }

    /** The worker's current entry gets the events; every other entry is left alone. */
    method AppendToCurrent(w: Drivers.WorkerId, events: seq<Reports.LogEvent>) returns (r: Result<(), Exception>)
      requires Valid()
      modifies Report()`tests
      ensures Valid()
      ensures w !in current ==> r == Err(NullPointer) && (extent != null ==> extent.tests == old(extent.tests))
      ensures w in current ==>
                r.Ok? && extent != null &&
                extent.tests == old(extent.tests)[current[w] := Logged(old(extent.tests)[current[w]], events)]
    {
      if w !in current {
        return Err(NullPointer);
      }
      var index := current[w];
      extent.Update(index, Logged(extent.tests[index], events));
      r := Ok(());
    }

    /**
     * captureScreenshot: attaches what Captured yields to the entry. Every
     * failure on the way is caught, so the log stays as it was.
     */
    method CaptureScreenshot(w: Drivers.WorkerId, result: ResultView,
                             shoot: (Drivers.Handle, string) -> Shot, status: string)
      requires Valid() && w in current
      modifies Report()`tests
      ensures Valid()
      ensures extent.tests == old(extent.tests)[current[w] :=
                old(extent.tests)[current[w]].(media := old(extent.tests)[current[w]].media
                                                        + Captured(result, shoot, status))]
    {
      var index := current[w];
      var e := extent.tests[index];
      match DriverFromTestInstance(result.instance)
      case None =>
        assert e.media + [] == e.media;
      case Some(driver) =>
        match shoot(driver, result.methodName + "_" + status)
        case Saved(path) =>
          extent.Update(index, e.(media := e.media + [path]));
        case NoPath =>
          assert e.media + [] == e.media;
        case Throws =>
          assert e.media + [] == e.media;
    }

    /** onTestSuccess: a green PASS label and, as capture on pass is off, no screenshot. */
    method OnTestSuccess(w: Drivers.WorkerId, result: ResultView) returns (r: Result<(), Exception>)
      requires Valid()
      modifies Report()`tests
      ensures Valid()
      ensures w !in current ==> r == Err(NullPointer) && (extent != null ==> extent.tests == old(extent.tests))
      ensures w in current ==>
                r.Ok? && extent != null &&
                extent.tests == old(extent.tests)[current[w] := Logged(old(extent.tests)[current[w]], PassEvents(result))]
    {
      r := AppendToCurrent(w, PassEvents(result));
    }

    /**
     * onTestFailure: a red FAIL label, the throwable if there is one, then a
     * screenshot named <method>_FAIL whenever a driver can be found.
     */
    method OnTestFailure(w: Drivers.WorkerId, result: ResultView,
                         shoot: (Drivers.Handle, string) -> Shot)
      returns (r: Result<(), Exception>)
      requires Valid()
      modifies Report()`tests
      ensures Valid()
      ensures w !in current ==> r == Err(NullPointer) && (extent != null ==> extent.tests == old(extent.tests))
      ensures w in current ==>
                r.Ok? && extent != null &&
                extent.tests == old(extent.tests)[current[w] :=
                  Logged(old(extent.tests)[current[w]], FailureEvents(result))
                    .(media := old(extent.tests)[current[w]].media + Captured(result, shoot, "FAIL"))]
    {
      r := AppendToCurrent(w, FailureEvents(result));
      if r.Ok? {
        CaptureScreenshot(w, result, shoot, "FAIL");
      }
    }

    /** onTestSkipped: a yellow SKIP label and the throwable if there is one; no screenshot. */
    method OnTestSkipped(w: Drivers.WorkerId, result: ResultView) returns (r: Result<(), Exception>)
      requires Valid()
      modifies Report()`tests
      ensures Valid()
      ensures w !in current ==> r == Err(NullPointer) && (extent != null ==> extent.tests == old(extent.tests))
      ensures w in current ==>
                r.Ok? && extent != null &&
                extent.tests == old(extent.tests)[current[w] := Logged(old(extent.tests)[current[w]], SkipEvents(result))]
    {
      r := AppendToCurrent(w, SkipEvents(result));
    }

    /** onTestFailedButWithinSuccessPercentage: a WARNING text line. */
    method OnTestFailedButWithinSuccessPercentage(w: Drivers.WorkerId, result: ResultView)
      returns (r: Result<(), Exception>)
      requires Valid()
      modifies Report()`tests
      ensures Valid()
      ensures w !in current ==> r == Err(NullPointer) && (extent != null ==> extent.tests == old(extent.tests))
      ensures w in current ==>
                r.Ok? && extent != null &&
                extent.tests == old(extent.tests)[current[w] := Logged(old(extent.tests)[current[w]], WarningEvents(result))]
    {
      r := AppendToCurrent(w, WarningEvents(result));
    }

    /** onFinish: flushes the report only if there is one. */
    method OnFinish()
      requires Valid()
      modifies Report()`flushCount
      ensures Valid()
      ensures extent != null ==> extent.flushCount == old(extent.flushCount) + 1
    {
      if extent != null {
        extent.Flush();
      }
    }
  }

  /**
   * An example run, not a general property: a test event before onStart
   * finds no report and throws; after a successful onStart the report is
   * new and empty, and the run goes on as in FailedTestRun.
   */
  method FailedTestScenario(userDir: string, now: string -> Result<string, Exception>, h: Drivers.Handle)
  {
    var manager := new Reports.ExtentReportManager();
    var listener := new TestListener(manager);
    var early := listener.OnTestStart(1, ResultView("login", None, [], None, None));
    assert early == Err(NullPointer);
    var started := listener.OnStart(None, userDir, now, "21");
    if started.Ok? {
      FailedTestRun(listener, h);
    }
  }

  /**
   * An example run, not a general property: on a listener holding a new,
   * empty report, one test on one worker starts, fails with an exception
   * and is captured through its driver field; the run then finishes.
   */
  method FailedTestRun(listener: TestListener, h: Drivers.Handle)
    requires listener.Valid() && listener.extent != null
    requires listener.extent.tests == [] && listener.extent.flushCount == 0
    modifies listener, listener.extent
  {
    var result := ResultView("login", Some(""), ["smoke", "regression"],
                             Some(Throwable("AssertionError", None)),
                             Some(TestInstance(Fails, Yields(Some(h)))));
    var ok := listener.OnTestStart(1, result);
    var shoot := (d: Drivers.Handle, name: string) => if d == h then Saved(name + ".png") else Throws;
    assert DriverFromTestInstance(result.instance) == Some(h);
    assert result.methodName + "_" + "FAIL" == "login_FAIL";
    assert shoot(h, "login_FAIL") == Saved("login_FAIL.png");
    assert Captured(result, shoot, "FAIL") == ["login_FAIL.png"];
    var failed := listener.OnTestFailure(1, result, shoot);
    var e := listener.extent.tests[0];
    assert e.description == None;
    assert e.categories == ["smoke", "regression"];
    assert e.media == ["login_FAIL.png"];
    assert |e.log| == 3 && e.log[2].detail.Thrown?;
    var other := listener.OnTestSuccess(2, result);
    assert other == Err(NullPointer);
    listener.OnFinish();
    assert listener.extent.flushCount == 1;
  }
}
