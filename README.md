# universal-test-catalog: a Dafny model of the runners, the UI API and the report proxy

universal-test-catalog is a command-line tool and a small web UI for
checking a website. It can run Playwright smoke tests, a Lighthouse audit,
and a network security suite made of four checks: a response-header audit,
an SSL Labs TLS grade, a HAR capture and an optional OWASP ZAP baseline
scan. A serverless proxy serves stored reports. This project models the
parts of it that decide things:

- **`Security`** (`security.dfy`) holds the header audit `auditHeaders`.
  It lower-cases the header names, checks them against a six-row policy and
  produces the findings. It also models:
  - `checkTLS`, which polls SSL Labs at most ten times;
  - `zapBaseline`, which never throws;
  - `captureHar`, which may throw.
- **`SecuritySuite`** (`security_suite.dfy`) models `runSecurity`.
  - A missing url aborts before anything runs.
  - The enabled checks run in the fixed order headers, tls, har, zap.
  - `tls`, `headers` and `har` default to on and `zap` to off.
  - The first check that throws aborts the run before the summary is
    written.
- **`ReportProxy`** (`report_proxy.dfy`) models the report proxy handler:
  - a missing path gets 400, before a missing storage base gets 500;
  - the upstream url is built from base, prefix and path;
  - a failed upstream passes its status through;
  - the headers of a served document: upstream content type, else a guess
    from the extension; configured cache control, else the default.
- **`UiServer`** (`ui_server.dfy`) models the four POST endpoints of the
  web UI. Each one answers 400 `Missing url` when the url is missing.
  Otherwise it builds the argument vector of a child CLI process from the
  request body and turns the process outcome into the JSON reply. The
  security switches it passes are read back by the CLI, and the module
  proves that this read-back leaves the suite's plan unchanged.
- **`WebRunner`** (`web_runner.dfy`) models `runWeb`. It builds the
  environment the Playwright tests inherit and the `playwright test`
  arguments. The readers of that environment on the test side are modelled
  too: the configuration and the smoke test.
- **`PerfRunner`** (`perf_runner.dfy`) models `runPerf`: the report path and
  the Lighthouse flags.
- **`Js`** (`js.dfy`) holds the JavaScript semantics the modules share:
  - truthiness, and destructuring defaults that replace only `undefined`;
  - `err?.message || String(err)`;
  - ASCII `toLowerCase`;
  - `endsWith`/`startsWith`;
  - the `/\/$/` strip;
  - `path.join`.

I/O is a parameter. The responses the network gives, whether Docker or the
browser step throws, the process a request spawns and the inherited
environment are inputs of the functions and methods. Every missing or
falsy string (an absent `url`, `path`, `grep` or environment variable, or
an empty one) is the empty string. A boolean option is a `Js.Value` so that
`undefined`, `false` and other falsy values stay distinct.

## Model

| member | source | states |
|---|---|---|
| Js.FlagDefaultOnlyForUndefined | src/runners/security.js:98 | a destructuring default affects the switch exactly when the option is `undefined` |
| Js.LowerMakesLower | src/runners/security.js:17 | lower-casing yields a lower-case string, is idempotent and leaves lower-case names unchanged |
| Js.LowerIgnoresCase | api/report-proxy.js:32 | strings that differ only in letter case lower-case to the same string |
| Js.StripTrailingSlash | api/report-proxy.js:10 | exactly one trailing `/` is removed when present; otherwise the string is unchanged |
| Js.InReportsDir | src/runners/security.js:8-11 | a file joined onto the reports directory is that directory, `/`, then the name; the directory ends in `reports` |
| Js.DecimalDenotes | api/report-proxy.js:15 | the rendered status is a string of digits that denotes the status itself, with no leading zero |
| Security.FromEntriesKeys | src/runners/security.js:17 | a name is in the header map iff some response header lower-cases to it; every key is lower case |
| Security.FromEntriesLastWins | src/runners/security.js:17 | a header's value survives unless a later header has the same lower-cased name |
| Security.SameLoweredNames | src/runners/security.js:17 | two responses whose headers agree on values and on lower-cased names give the same header map |
| Security.CaseOfNameIrrelevant | src/runners/security.js:17 | re-casing one header name, at any position in the response, does not change the header map |
| Security.PolicyKeysDistinct | src/runners/security.js:19-26 | the policy checks exactly the six headers, in their order, with distinct names |
| Security.EvaluateFollowsRows | src/runners/security.js:28-37 | at most one finding per row; each names a checked header; findings keep the rows' order |
| Security.RowContribution | src/runners/security.js:29-37 | the findings about one header are exactly what that header's row yields |
| Security.AuditShape | src/runners/security.js:19-37 | at most six findings, about policy headers only, in policy order |
| Security.MissingRequiredHeader | src/runners/security.js:32-33 | a required header that is absent yields exactly one `missing`/`medium` finding carrying the row's description |
| Security.HstsOnlyForHttps | src/runners/security.js:21 | a missing HSTS header is reported for `https://` targets and never for others |
| Security.ContentTypeOptionsValue | src/runners/security.js:34-35 | a present `x-content-type-options` yields no finding iff its lower-cased value is `nosniff`, otherwise one `value`/`low` finding quoting the value |
| Security.NosniffIgnoresCase | src/runners/security.js:34 | `NOSNIFF` passes and `SNIFF` is reported |
| Security.PresentHeaderWithoutExpectedValue | src/runners/security.js:29-36 | a present header whose row expects no value is never reported |
| Security.AuditHeaders | src/runners/security.js:14-44 | a throwing fetch propagates its error; otherwise the result holds the lower-cased header map, the audit findings and `reports/security-headers.json` |
| Security.CheckTls | src/runners/security.js:46-61 | 1 to 10 calls; every call before the last was pending; a thrown call is the error; otherwise the last payload is settled or the tenth; one wait per pending reply; the result goes to `reports/ssl-labs.json` |
| Security.PollingSucceeded | src/runners/security.js:50-55 | when the first non-pending reply within ten calls is JSON, polling cannot fail and keeps that payload |
| Security.ZapCommandWritesReport | src/runners/security.js:65-73 | the scan targets the url, mounts the reports directory as its working directory and writes the file whose path is returned |
| SecuritySuite.ZapNeverAborts | src/runners/security.js:76-79 | whatever Docker does, the ZAP scan never decides whether a run finishes: its failure is swallowed into the result |
| SecuritySuite.StageMembers | src/runners/security.js:102-109 | a check is among the first `k` steps iff it comes before step `k` and is switched on; the steps keep the fixed order |
| SecuritySuite.StagePrefix | src/runners/security.js:102-109 | the checks after fewer steps are a prefix of those after more |
| SecuritySuite.PlannedIsEnabledChecks | src/runners/security.js:98-109 | each check is planned iff its option (with its default) is on, and the plan follows headers, tls, har, zap |
| SecuritySuite.DefaultPlan | src/runners/security.js:98 | with no options the plan is headers, tls, har |
| SecuritySuite.FailsWithUnique | src/runners/security.js:103-108 | a check throws at most one error (for TLS, that of the first call that threw before a settled reply), and only a failing check throws one |
| SecuritySuite.TlsStep | src/runners/security.js:104-107 | the TLS step fails iff `new URL(url)` throws or an SSL Labs call throws before a settled reply, carrying that error; otherwise it keeps the polled payload |
| SecuritySuite.RunCheck | src/runners/security.js:103-109 | one check fails iff its environment makes it throw, and then with the error that check throws; otherwise its result is what that check produces |
| SecuritySuite.StopsAtThrow | src/runners/security.js:103-109 | when the check of the next enabled block throws, the run stops with that check last, its error, every earlier check passed, and the plan as a whole failing |
| SecuritySuite.GoesOnAfterPass | src/runners/security.js:103-109 | when that check passes, its produced result is appended and progress moves past its block |
| SecuritySuite.Take | src/runners/security.js:103-109 | running the next planned check either extends the passed prefix or stops at that check with the error it threw |
| SecuritySuite.Block | src/runners/security.js:103-109 | a block whose switch is off leaves the run unchanged; one that is on runs its check, which either passes or stops the run with its error |
| SecuritySuite.RunChecks | src/runners/security.js:102-109 | either every planned check ran and passed, in order, with its result, or the run stopped at the first that threw, with its error |
| SecuritySuite.EnabledThrowAborts | src/runners/security.js:103-108 | an enabled header, TLS or HAR check that throws (fetch error, `new URL` error or SSL Labs error, browser error) keeps the run from finishing |
| SecuritySuite.RunSecurity | src/runners/security.js:98-115 | a missing url aborts with `Missing --url` before any check; a finished run means every planned check passed, with one produced result each in plan order and the summary in `reports/security-summary.json`; an aborted run stopped at the first check that threw and carries the error that check threw |
| ReportProxy.GuessContentType | api/report-proxy.js:31-42 | always names a content type |
| ReportProxy.ExtensionsUnrelated | api/report-proxy.js:33-40 | no known extension is a suffix of another |
| ReportProxy.AtMostOneExtension | api/report-proxy.js:33-40 | a path ends in at most one known extension |
| ReportProxy.GuessFollowsTable | api/report-proxy.js:31-42 | a path ending in a known extension, ignoring case, gets that extension's type; any other path gets `application/octet-stream` |
| ReportProxy.GuessIgnoresCase | api/report-proxy.js:32 | the guess does not depend on letter case |
| ReportProxy.Target | api/report-proxy.js:10 | the upstream url ends in `/` followed by the requested path |
| ReportProxy.TargetWithoutPrefix | api/report-proxy.js:7-10 | without a prefix the url is base, `/`, path, whether or not the base ends in `/` |
| ReportProxy.TrailingSlashIrrelevant | api/report-proxy.js:10 | a trailing `/` on base or prefix does not change the url, which is base, `/`, prefix, `/`, path |
| ReportProxy.Handle | api/report-proxy.js:1-29 | a missing path gets 400 before configuration is consulted; a missing base gets 500; fetching happens iff both are present, at the target url; an unreachable upstream gets 500 with the error text, and so does a 2xx answer whose bytes cannot be read; a document is served iff the upstream answered 2xx with a readable body |
| ReportProxy.MissingPathFirst | api/report-proxy.js:3-4 | a request without a path gets the same 400 reply regardless of configuration and upstream |
| ReportProxy.UpstreamFailurePassesThrough | api/report-proxy.js:13-16 | a non-2xx upstream status is passed through, with the upstream text or, if that is empty, `Upstream fetch failed: ` followed by the status in decimal |
| ReportProxy.DocumentHeaders | api/report-proxy.js:19-25 | a served document has status 200, the upstream content type or else the guessed one, the configured cache control or else `public, max-age=60`, and the upstream bytes |
| UiServer.SwitchedMembers | src/server/ui.js:34-37 | a switch appears in the argument vector iff its condition holds |
| UiServer.SwitchedDistinct | src/server/ui.js:34-37 | with distinct switch names, each name appears iff its own condition holds |
| UiServer.WebSwitchesRead | src/server/ui.js:30-36 | `--lenient` iff lenient (default on); `--no-a11y` iff `a11y` is exactly `false`; `--a11y-strict` iff a11yStrict |
| UiServer.WebDefaults | src/server/ui.js:30-37 | an empty web request asks for a lenient run of the url |
| UiServer.PostWeb | src/server/ui.js:29-43 | a missing url gets 400 and spawns nothing; otherwise it spawns `node` with the web argument vector in the root directory and answers with the process outcome |
| UiServer.PerfArgvRead | src/server/ui.js:47-51 | the perf vector is the CLI prefix, then `--desktop` iff desktop |
| UiServer.PostPerf | src/server/ui.js:46-57 | the 400 guard, then the perf vector and the answer |
| UiServer.PostQuick | src/server/ui.js:60-70 | the 400 guard, then `quick --url <url>` and the answer |
| UiServer.SecuritySwitchesRead | src/server/ui.js:74-81 | `--no-tls`, `--no-headers` and `--no-har` iff that check is off (default on); `--zap` iff zap |
| UiServer.SecurityDefaults | src/server/ui.js:74-81 | an empty security request passes no switch at all |
| UiServer.SecurityPlanSurvivesCli | src/index.js:122-132 | the CLI reads the switches back into options whose suite plan equals the plan of the request |
| UiServer.PostSecurity | src/server/ui.js:73-87 | the 400 guard, then the security vector and the answer |
| WebRunner.RunnerEnv | src/runners/web.js:6-12 | the test environment is the inherited one with the four variables added: `TARGET_URL` is the url, `A11Y_ENABLED` is `1` iff accessibility checks are on (default on), `A11Y_STRICT` and `LENIENT` are `1` iff their options are on (default off), `0` otherwise; every other variable is passed through |
| WebRunner.OptionsReachTests | src/runners/web.js:4-12 | the configuration and smoke tests read back accessibility (default on), strict mode, lenient timeouts and the target url the runner was given |
| WebRunner.RunnerTimeouts | playwright.config.cjs:18-19 | with the environment the runner builds, the tests use 45 s action and 60 s navigation timeouts when the runner's `lenient` option is on, 15 s and 30 s otherwise |
| WebRunner.LenientWidensTimeouts | playwright.config.cjs:4-19 | lenient mode triples the action timeout and doubles the navigation timeout |
| WebRunner.RunWeb | src/runners/web.js:13-18 | `npx playwright test --reporter=list`, then `-g <grep>` iff a grep pattern is given, with the runner environment |
| PerfRunner.OutPathInReports | src/runners/perf.js:8-10 | the report is `reports/lighthouse-<mode>.html`; the two presets write different files |
| PerfRunner.RunPerf | src/runners/perf.js:6-13 | exactly `npx lighthouse <url>` with the three HTML output flags for the report path, followed by `--preset=desktop` as the last argument in desktop mode and nothing more otherwise |
| PerfRunner.ReportFlagNamesOutPath | src/runners/perf.js:10-11 | the only output-path flag names the report file |

## Left out

- The network is not modelled. `fetch`, SSL Labs, the Lighthouse,
  Playwright and ZAP runs, and the upstream of the proxy are inputs. The
  proxy's upstream is its status, content type, text and bytes.
- The filesystem is not modelled: `mkdirSync`, `existsSync`,
  `writeFileSync`, the JSON files' contents and `JSON.stringify`. Only the
  paths of the files written are modelled, and a filesystem error is not a
  modelled failure.
- Console output, `chalk` colouring and the summary's timestamp are left
  out.
- The 8-second sleep is left out. `checkTLS` counts the waits instead of
  sleeping.
- The analyze URL with `encodeURIComponent(hostname)` is not built. The
  replies are indexed by call number instead.
- `new URL(url).hostname` is not parsed. Whether it throws is an input of
  the suite.
- `captureHar` models no browser internals: launch, navigation, the
  3-second wait and HAR recording. It is one step that either completes or
  throws.
- Security.ZapCommand: records the Docker command line of
  `src/runners/security.js:68-72`. The Docker outcome `zapBaseline` sees is an
  input, not the result of running that command.
- `zapBaseline` models no Docker or ZAP internals. Success or failure of
  the container is an input.
- Express routing, JSON body parsing, static routes, the home page and
  `listen` are left out.
- The child process (`execa`) is a function from the process description
  to its outcome.
- In the report proxy, headers set before a later failure (a body that
  cannot be read after Content-Type was set) are not tracked. The reply is
  the 500 JSON error.
- The commander CLI is modelled only for the security options read back by
  `src/index.js`. The other commands, the wizard, the mobile, API and setup
  runners, the browser-side UI scripts and `api/run/quick.js` are not part
  of this model.
- Js.Lower: lower-cases ASCII letters only. Unicode case mapping is left
  out.
- Js.PathJoin: `path.join` normalises `..`, `.` and repeated separators;
  the model does not.
- `path.resolve` of the working directory is taken as already absolute and
  normalised.
- Js.Value does not represent fractional numbers, `NaN`, arrays or
  objects in a request body. Each option's truthiness is still covered by
  the values it has: `undefined`, `null`, booleans, integers and strings.
- A url, path or grep that is not a string, such as a number or an object
  in the request body, is not modelled. Such values are strings or absent
  here.
- ReportProxy.Target: when the prefix is exactly `/` it strips to the
  empty string, so the url gets `//` before the path. The lemmas cover only
  prefixes without a trailing slash, or an empty prefix.
