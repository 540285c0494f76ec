# Test harness core of a Selenium/TestNG framework, in Dafny

This project models the harness logic that surrounds every test of a
Selenium + TestNG automation framework, and proves what that logic promises.
Six Java classes are modelled, one Dafny module each:

- `Retry` (`RetryAnalyzer`): the per-test retry counter. It is bounded by a
  maximum that is read once from the configuration. `retry` answers true
  while the counter is below the maximum, and any non-SUCCESS result counts
  as a failure.
- `Config` (`ConfigReader`): settings resolved from two maps, the JVM system
  properties and `config.properties`. A non-empty system property wins.
  Typed getters fall back to the framework constants.
- `Drivers` (`DriverManager`): the per-thread WebDriver registry. It is a
  class holding a map from worker id to session. The browser switch is a
  pure function from the lower-cased browser name and the headless flag to
  the option arguments and the maximize call, or to an error.
- `Reports` (`ExtentReportManager`): the timestamped report path, the Spark
  reporter settings, the `systeminfo.` entries, and the lazily created
  report singleton.
- `Listener` (`TestListener`): TestNG events become report entries. Each
  entry has a log, categories and screenshots. Each worker has a current
  entry, and screenshot capture never changes what was logged.
- `Excel` (`ExcelReader`): a sheet (optional rows of optional typed cells)
  becomes a 2-D table filled in nested loops, or a list of header-keyed maps.

`JavaText` holds the small part of the Java platform the code relies on:
null as `Option`, exceptions as `Result`, `toLowerCase`,
`equalsIgnoreCase`, `lastIndexOf`, `String.replace`, `Integer.parseInt`
and `String.valueOf`.

Points where the code's behaviour is easy to misread:

- Teardown: `quitDriver` has no catch. If `quit` throws, the entry stays
  registered.
- Skipped results: `retry` is gated only on `!isSuccess()`, so a skipped
  result is retried like a failure, despite the comment in the source.
- Retried results are set to FAILURE, not back to a running state.
- Screenshot on pass: `shouldCaptureScreenshotOnPass` is hard-wired to
  false.
- Maximizing: every browser is maximized, headless or not.
- Page-load timeout: the constant 30 is used, not `page.load.timeout`.

External effects are parameters. These are: whether Selenium starts a
browser, whether `quit` throws, the timestamp formatter, the Java version
and `user.dir`, the screenshot outcome, and the reflective driver lookup.

## Model

| member | source | states |
|---|---|---|
| `Retry.RetryAnalyzer.constructor` | src/test/java/listeners/RetryAnalyzer.java:21-29 | A new analyzer has counter 0 and a fixed maximum, and satisfies the invariant 0 <= counter <= max(0, maximum). |
| `Retry.RetryAnalyzer.Create` | src/test/java/listeners/RetryAnalyzer.java:27-29 | The maximum is exactly `ConfigReader.getRetryCount()`. A NumberFormatException from it escapes the constructor and no analyzer exists. |
| `Retry.RetryAnalyzer.Retry` | src/test/java/listeners/RetryAnalyzer.java:38-65 | Non-success below the maximum: counter +1, status FAILURE, true. Non-success at the maximum: counter unchanged, FAILURE, false. Success: counter unchanged, SUCCESS, false. The invariant is kept. |
| `Retry.RetryAnalyzer.GetRetryCount` | src/test/java/listeners/RetryAnalyzer.java:71-73 | Returns the counter, which lies within 0..max(0, maximum), and changes nothing. |
| `Retry.RetryAnalyzer.GetMaxRetryCount` | src/test/java/listeners/RetryAnalyzer.java:79-81 | Returns the maximum and changes nothing. |
| `Retry.ReplayGrantsUpToMax` | src/test/java/listeners/RetryAnalyzer.java:40-52 | Over any sequence of attempt outcomes, the number of true answers is min(number of non-successes, max(0, maximum - start counter)). |
| `Retry.AtMostMaxRetries` | src/test/java/listeners/RetryAnalyzer.java:41-42 | A fresh analyzer answers true at most max(0, maximum) times in its life. |
| `Retry.NoRetriesWithZeroMax` | src/test/java/listeners/RetryAnalyzer.java:41-42 | When the counter is already at or above the maximum (so with maximum 0 from the start), every answer is false. |
| `Config.GetProperty` | src/main/java/utils/ConfigReader.java:77-90 | A non-empty system property is returned. Otherwise the file value is returned, which may be absent (null) or empty. |
| `Config.GetPropertyOr` | src/main/java/utils/ConfigReader.java:98-101 | Returns the resolved value iff it is present and non-empty, otherwise the default. A non-empty default gives a non-empty result. |
| `Config.EmptyOverrideIsIgnored` | src/main/java/utils/ConfigReader.java:79-82 | A system property set to "" behaves exactly like no system property. |
| `Config.GetUrl` | src/main/java/utils/ConfigReader.java:109-120 | Returns the value of `<environment>.url` whenever it is non-null, even when empty. Only a null value falls back to `url` and then to the default site. |
| `Config.EmptyEnvironmentUrlIsKept` | src/main/java/utils/ConfigReader.java:111-118 | An empty environment URL is returned as "", with no fallback. |
| `Config.UrlDefault` | src/main/java/utils/ConfigReader.java:109-120 | With nothing configured, the URL is `https://www.saucedemo.com/`. |
| `Config.GetFlag` | src/main/java/utils/ConfigReader.java:136-139 | A boolean getter is true iff the resolved text (or the default's text) lower-cases to "true". A configured value v decides by v alone, and with nothing configured the result is the default. |
| `Config.IsRetryEnabled` | src/main/java/utils/ConfigReader.java:275-277 | True iff `retry.enabled` (default "true") equals "true" ignoring case. |
| `Config.IsRemoteExecution` | src/main/java/utils/ConfigReader.java:165-167 | True iff the execution mode equals "remote" ignoring case. |
| `Config.LocalByDefault` | src/main/java/utils/ConfigReader.java:157-167 | With `execution.mode` unset or empty, the default "local" gives false. |
| `Config.GetIntDefault` | src/main/java/utils/ConfigReader.java:183-186 | An absent or empty integer key yields its default, read back exactly by `Integer.parseInt`. |
| `Config.GetIntConfigured` | src/main/java/utils/ConfigReader.java:183-186 | A key set to the decimal text of n yields n. |
| `Config.GetBrowser` | src/main/java/utils/ConfigReader.java:128-130 | The configured browser text as written (case is kept), or "chrome" when nothing non-empty is configured. |
| `Config.IsHeadless` | src/main/java/utils/ConfigReader.java:136-139 | True iff the configured text lower-cases to "true". False when unset. |
| `Config.GetEnvironment` | src/main/java/utils/ConfigReader.java:147-149 | The configured environment, or "qa" when nothing non-empty is configured. |
| `Config.GetExecutionMode` | src/main/java/utils/ConfigReader.java:157-159 | The configured execution mode, or "local" when nothing non-empty is configured. |
| `Config.GetGridUrl` | src/main/java/utils/ConfigReader.java:173-175 | The configured hub URL, or `http://localhost:4444` when nothing non-empty is configured. |
| `Config.GetInt` | src/main/java/utils/ConfigReader.java:183-186 | A configured value v gives `Integer.parseInt(v)`, its NumberFormatException included. Every success is a 32-bit int. |
| `Config.GetImplicitWait` | src/main/java/utils/ConfigReader.java:183-186 | A configured value v gives `Integer.parseInt(v)`. Unset or empty gives 10. |
| `Config.GetExplicitWait` | src/main/java/utils/ConfigReader.java:192-195 | A configured value v gives `Integer.parseInt(v)`. Unset or empty gives 20. |
| `Config.GetPageLoadTimeout` | src/main/java/utils/ConfigReader.java:201-204 | A configured value v gives `Integer.parseInt(v)`. Unset or empty gives 30. |
| `Config.CaptureScreenshotOnPass` | src/main/java/utils/ConfigReader.java:228-231 | True iff the configured text lower-cases to "true". False when unset. |
| `Config.CaptureScreenshotOnFail` | src/main/java/utils/ConfigReader.java:237-240 | True iff the configured text lower-cases to "true". True when unset. |
| `Config.GetThreadCount` | src/main/java/utils/ConfigReader.java:248-251 | A configured value v gives `Integer.parseInt(v)`. Unset or empty gives 5. |
| `Config.GetUsername` | src/main/java/utils/ConfigReader.java:259-261 | The configured user name, or "" when nothing non-empty is configured. |
| `Config.GetPassword` | src/main/java/utils/ConfigReader.java:267-269 | The configured password, or "" when nothing non-empty is configured. |
| `Config.GetRetryCount` | src/main/java/utils/ConfigReader.java:212-220 | 0 when `retry.enabled` equals "false" ignoring case. Otherwise `Integer.parseInt` of `retry.count`, default 1. |
| `Config.RetryDisabledForcesZero` | src/main/java/utils/ConfigReader.java:213-215 | When `retry.enabled` equals "false" ignoring case (any spelling, such as "False"), the count is 0 whatever `retry.count` holds, even text that would not parse. |
| `Config.RetryCountDefault` | src/main/java/utils/ConfigReader.java:212-220 | With nothing configured, one retry is allowed and retry is enabled. |
| `Config.RetryEnabledDisagreesWithCount` | src/main/java/utils/ConfigReader.java:275-277 | `retry.enabled = no` turns `isRetryEnabled` off, yet `getRetryCount` still returns the configured count. |
| `Drivers.BrowserOptions` | src/main/java/utils/DriverManager.java:51-88 | Only "chrome", "firefox" and "edge" succeed, and anything else is the IllegalArgumentException. Gives the exact argument list for each browser (headless argument first iff headless) and Firefox's maximize call. |
| `Drivers.HeadlessArgIffHeadless` | src/main/java/utils/DriverManager.java:55-81 | Every supported browser gets a headless argument iff headless is set. |
| `Drivers.AlwaysMaximized` | src/main/java/utils/DriverManager.java:58-83 | Every supported browser is maximized, by argument or by call, even when headless. |
| `Drivers.BrowserNameIgnoresCase` | src/main/java/utils/DriverManager.java:46-51 | Because the name is lower-cased first, a name is accepted iff it equals one of the three names ignoring case. |
| `Drivers.StartSession` | src/main/java/utils/DriverManager.java:45-95 | Succeeds iff the browser is supported, Selenium starts it and the implicit wait parses. The implicit wait comes from the configuration, while the page-load timeout is the constant 30. |
| `Drivers.DefaultSession` | src/main/java/utils/DriverManager.java:45-95 | With no configuration, a non-headless Chrome starts with the five fixed arguments, a 10 s implicit wait and a 30 s page load. |
| `Drivers.DriverManager.GetDriver` | src/main/java/utils/DriverManager.java:29-31 | Returns the worker's registered session or none, and never creates one. |
| `Drivers.DriverManager.SetDriver` | src/main/java/utils/DriverManager.java:37-39 | Binds the session to the worker and replaces any earlier one. |
| `Drivers.DriverManager.InitializeDriver` | src/main/java/utils/DriverManager.java:45-98 | On success, registers the new session for the worker without quitting the old one. On any exception, the registry is unchanged. |
| `Drivers.DriverManager.QuitDriver` | src/main/java/utils/DriverManager.java:104-110 | With no entry, nothing happens. Otherwise the session is quit and removed. If quit throws, the entry stays. |
| `Reports.TimestampedReportPath` | src/main/java/reports/ExtentReportManager.java:75-95 | Fails with an index error iff the file name has no '.'. |
| `Reports.TimestampedPathShape` | src/main/java/reports/ExtentReportManager.java:83-94 | For dir/stem.ext (ext starting at the last dot), the result is dir/stem_timestamp.ext, and the stem may contain dots. |
| `Reports.NoExtensionFails` | src/main/java/reports/ExtentReportManager.java:88-89 | A file name without a dot throws from `substring`. |
| `Reports.BareNameGoesUnderNull` | src/main/java/reports/ExtentReportManager.java:84-94 | A path without a directory has a null parent, so the result starts with "null/". |
| `Reports.SplitJoin` | src/main/java/reports/ExtentReportManager.java:83-85 | `getParent` and `getName` split dir/name back into dir and name. |
| `Reports.DefaultTimestampedPath` | src/main/java/constants/FrameworkConstants.java:42-45 | The default report path becomes `<user.dir>/test-output/reports/ExtentReport_<timestamp>.html`. |
| `Reports.LoadProperties` | src/main/java/reports/ExtentReportManager.java:102-112 | The loaded extent.properties, or empty properties when the file cannot be read. |
| `Reports.ReportFile` | src/main/java/reports/ExtentReportManager.java:45-49 | A formatter that rejects the timestamp pattern fails first, with its own exception. Otherwise the result is the stamped `extent.reporter.spark.out` path (default under user.dir), and it fails iff that file name has no '.'. |
| `Reports.DefaultReportFile` | src/main/java/reports/ExtentReportManager.java:45-49 | Without extent.properties, the report file is `<user.dir>/test-output/reports/ExtentReport_<timestamp>.html` for the default pattern. |
| `Reports.GetProperty` | src/main/java/reports/ExtentReportManager.java:117-119 | The default applies only to an absent key, so an empty value stays empty. |
| `Reports.MissingFileGivesDefaults` | src/main/java/reports/ExtentReportManager.java:102-112 | Without extent.properties, every Spark setting takes its default, and css and js stay unset. |
| `Reports.OptionalPath` | src/main/java/reports/ExtentReportManager.java:161-170 | css and js are applied iff present and non-empty. |
| `Reports.ConfigureSpark` | src/main/java/reports/ExtentReportManager.java:124-171 | The theme is DARK iff the theme text equals "dark" ignoring case. The offline and timeline flags parse as booleans. The title, name, timestamp format and encoding are the property's value when the key is present (even if empty) and the default only when it is absent. css and js are the property's value when it is present and non-empty, and otherwise unset. |
| `Reports.InfoNameStripsPrefix` | src/main/java/reports/ExtentReportManager.java:180 | `systeminfo.X` is named X when X holds no further copy of the prefix. |
| `Reports.SetSystemInformation` | src/main/java/reports/ExtentReportManager.java:176-189 | Adds exactly one entry per key starting with `systeminfo.`, each key once, named with every copy of the prefix removed. Then come `Java Version` and `User Directory`. |
| `Reports.ExtentReportManager.CreateInstance` | src/main/java/reports/ExtentReportManager.java:40-69 | Loads the properties, then builds a report with the stamped path, the Spark settings, no tests, and system info made of one entry per `systeminfo.` key (each key once, in some order) followed by Java Version and User Directory. A formatter or stamping error escapes and sets no report. |
| `Reports.ExtentReportManager.GetInstance` | src/main/java/reports/ExtentReportManager.java:30-35 | Creates the report once, with the stamped path, the Spark settings and no tests. Its system info is one entry per `systeminfo.` key (each key once, in some order), then Java Version and User Directory. Every later call returns that same report. A formatter or stamping error leaves no report. |
| `Reports.ExtentReportManager.Flush` | src/main/java/reports/ExtentReportManager.java:194-198 | Flushes only a report that exists, and is a no-op before creation. The recorded tests and system info are unchanged. |
| `Listener.DriverFromTestInstance` | src/test/java/listeners/TestListener.java:197-214 | Tries the `getDriver()` method first, and its result stands even when null. The `driver` field is tried only if the method throws. Otherwise the result is null. |
| `Listener.NullFromMethodHidesField` | src/test/java/listeners/TestListener.java:197-214 | A `getDriver()` that returns null hides a driver held in the field. |
| `Listener.Captured` | src/test/java/listeners/TestListener.java:178-186 | At most one screenshot is attached, and none without a driver. One is attached iff a driver is found and the shot taken under `<method>_<status>` is saved, and then it is that saved path. |
| `Listener.ShouldCaptureScreenshotOnPass` | src/test/java/listeners/TestListener.java:220-224 | Always false. |
| `Listener.PassCaptureIgnoresConfig` | src/test/java/listeners/TestListener.java:220-224 | `screenshot.on.pass = true` makes `captureScreenshotOnPass` true, yet the listener still does not capture on pass. |
| `Listener.Description` | src/test/java/listeners/TestListener.java:56-60 | The description is used iff it is non-null and non-empty. |
| `Listener.OutcomeEventsShape` | src/test/java/listeners/TestListener.java:105-135 | FAIL and SKIP log their label, then an exception line iff there is a throwable, all with the same status. |
| `Listener.PassNeverThrown` | src/test/java/listeners/TestListener.java:85-91 | PASS logs one green label and never a screenshot, because capture on pass is hard-wired off. |
| `Listener.TestListener.OnStart` | src/test/java/listeners/TestListener.java:37-44 | Takes the manager's report, which is the existing one or a fresh empty one. With a report already made it always succeeds. Otherwise it succeeds iff `getInstance` can build the report file, and on failure that exception escapes. |
| `Listener.TestListener.OnTestStart` | src/test/java/listeners/TestListener.java:50-75 | Appends one entry with one category per group in group order and a "Test Started" line, and binds it as the worker's current test. Without a report it throws NullPointerException. |
| `Listener.TestListener.CaptureScreenshot` | src/test/java/listeners/TestListener.java:172-191 | Only the current entry's screenshots change, and its log is untouched. Capture failures are swallowed. |
| `Listener.TestListener.OnTestSuccess` | src/test/java/listeners/TestListener.java:81-94 | Only the worker's current entry changes: one PASS line, no screenshot. A worker with no current test throws NullPointerException. |
| `Listener.TestListener.OnTestFailure` | src/test/java/listeners/TestListener.java:100-116 | FAIL label, the throwable iff non-null, then the `<method>_FAIL` capture, all on the worker's current entry. |
| `Listener.TestListener.OnTestSkipped` | src/test/java/listeners/TestListener.java:122-136 | SKIP label and the throwable iff non-null, with no screenshot. |
| `Listener.TestListener.OnTestFailedButWithinSuccessPercentage` | src/test/java/listeners/TestListener.java:142-146 | One WARNING text line on the current entry. |
| `Listener.TestListener.OnFinish` | src/test/java/listeners/TestListener.java:153-167 | Flushes iff the report exists. |
| `JavaText.BoolString` | src/main/java/utils/ExcelReader.java:110-111 | `String.valueOf(boolean)` is "true" or "false", and `Boolean.parseBoolean` reads it back as the same value. |
| `Excel.CellValue` | src/main/java/utils/ExcelReader.java:97-116 | A missing, blank or error cell reads as "". A string cell gives its text, a formula its formula text (not its value), and a date-formatted number the date's text. A plain number is its decimal digits and a boolean is "true" or "false". These read back with `Integer.parseInt` (for a 32-bit number) and `Boolean.parseBoolean` as the cell's value. |
| `Excel.HeaderKey` | src/main/java/utils/ExcelReader.java:76 | A missing header cell is a null dereference. A string cell gives its text, a blank "", and a formula its cached string result. Any other type, or a formula without a cached string, throws IllegalStateException. |
| `Excel.TableShape` | src/main/java/utils/ExcelReader.java:32-44 | The table has lastRowNum rows by the header's cell count. A missing header row, a header without cells, or a missing data row (when there are columns) throws. |
| `Excel.GetTestData` | src/main/java/utils/ExcelReader.java:25-53 | An unreadable file gives null, and a missing sheet throws. Otherwise the dimensions or the error are those of TableShape, and entry [i-1][j] is the text of sheet cell (i, j), so the header row is excluded. |
| `Excel.FillRow` | src/main/java/utils/ExcelReader.java:40-43 | The inner loop writes the text of each cell j of the row into `data[i-1][j]`, and every other row of the table stays as it was. |
| `Excel.ToMapKeys` | src/main/java/utils/ExcelReader.java:73-78 | A row map has exactly the keys that were put. |
| `Excel.LaterPairWins` | src/main/java/utils/ExcelReader.java:75-79 | With duplicate keys, the value put last wins. |
| `Excel.RowPairs` | src/main/java/utils/ExcelReader.java:75-79 | Column j puts the header cell's text and the row cell's text, in column order. |
| `Excel.RowPairsAt` | src/main/java/utils/ExcelReader.java:75-78 | Pair j of a row read whole has the text of header cell j as key and the text of row cell j as value. The row exists whenever there is a column. |
| `Excel.PutRow` | src/main/java/utils/ExcelReader.java:73-79 | The inner loop builds exactly the map of that row's pairs, or stops with the first exception they meet. |
| `Excel.RowMapsAt` | src/main/java/utils/ExcelReader.java:71-81 | Map i comes from sheet row i + 1, in row order. |
| `Excel.RowMapContents` | src/main/java/utils/ExcelReader.java:71-81 | There is one map per data row, keyed exactly by the header texts. Under column j's header is that row's cell j, unless a later column repeats the header. |
| `Excel.TestDataAsMap` | src/main/java/utils/ExcelReader.java:61-90 | An unreadable file gives the empty list, and a missing sheet throws. |
| `Excel.GetTestDataAsMap` | src/main/java/utils/ExcelReader.java:61-90 | The loops build exactly TestDataAsMap, including the first exception met. |

## Left out

- Loading and reloading `config.properties` and `extent.properties`, and the static-initializer failure: file I/O. Both files are given as maps, with an absent extent file as `None`.
- Opening the Excel file: file I/O. The workbook is an input, `None` when the file cannot be read (the IOException path).
- Sheet lookup: the workbook is a map from sheet name to sheet, looked up by exact name. POI's `getSheet` ignores case, so the map must hold the sheet under each name the tests ask for. The case-insensitive match itself is not modelled.
- Logging through `LogUtil` and `System.out`: it changes nothing that the harness decides.
- `ThreadLocal` concurrency: worker identity is an explicit map key, and there are no threads.
- Selenium itself: `WebDriverManager.setup`, starting a browser, `quit`, applying timeouts and maximizing are not modelled. Whether the start succeeds and whether `quit` throws are inputs.
- The Extent and POI libraries: report rendering, the Spark reporter object and `mkdirs` are not modelled. The report is kept as data (entries, system info, a flush counter).
- Date formatting: the timestamp is a function from the pattern to text or to the exception the SimpleDateFormat constructor throws on a rejected pattern. It is given as input, so which patterns are rejected is not modelled. A date-formatted numeric cell carries its rendered text.
- java.io.File path handling is modelled for Unix separators only: `File.separator` is '/', and Windows drive prefixes and '\\' normalisation are not modelled.
- Excel.CellValue: the NUMERIC branch takes an already integral value. The double-to-long cast, with its truncation and saturation, is not modelled.
- Reflection in `getDriverFromTestInstance`: each reflective access is an input that either throws or yields a driver or null.
- `ScreenshotUtil.captureScreenshot`: an input that yields a path, null or an exception. A null path makes Extent's `addScreenCaptureFromPath` throw, which is caught, so nothing is attached.
- Reports.SetSystemInformation: `stringPropertyNames` has no fixed order, so the order of the `systeminfo.` entries is existentially chosen, not fixed.
- Character handling: case mapping and digits are modelled for ASCII only.
- `RetryListener`, `BaseTest`, `FrameworkConstants` directory creation, page objects, `WaitHelper`: they are browser interaction or glue outside this core.
