/**
 * The network security suite (src/runners/security.js): the response-header
 * policy, the bounded SSL Labs polling loop, the ZAP baseline scan that
 * swallows its own failure, the HAR capture step and the suite run that
 * assembles the results of the enabled checks in a fixed order.
 *
 * Everything the suite asks of the outside world is an input: the fetched
 * response headers, the sequence of SSL Labs replies, whether the browser and
 * the Docker run succeed, and the working directory.
 */
module Security {
  import opened Js

  // ---------------------------------------------------------------------
  // Header audit

  /** One row of the header policy; `expected == ""` means no expected value. */
  datatype Check = Check(key: string, required: bool, expected: string, desc: string)

  datatype FindingKind = Missing | WrongValue

  datatype Severity = Medium | Low

  datatype Finding = Finding(kind: FindingKind, key: string, severity: Severity, desc: string)

  /** Response headers after lower-casing their names. */
  type Headers = map<string, string>

  /** The six-row policy; HSTS is required only for an `https://` target. */
  function Policy(url: string): seq<Check>
  {
    [ Check("content-security-policy", true, "", "CSP helps mitigate XSS"),
      Check("strict-transport-security", StartsWith(url, "https://"), "", "HSTS enforces HTTPS"),
      Check("x-content-type-options", true, "nosniff", "Prevents MIME sniffing"),
      Check("x-frame-options", true, "", "Clickjacking protection"),
      Check("referrer-policy", true, "", "Controls referrer leakage"),
      Check("permissions-policy", true, "", "Restrict powerful features") ]
  }

  /**
   * `Object.fromEntries` over the response header entries with every name
   * lower-cased; a later entry overwrites an earlier one with the same key.
   */
  function FromEntries(entries: seq<(string, string)>): Headers
  {
    if entries == [] then map[]
    else
      var n := |entries| - 1;
      FromEntries(entries[..n])[Lower(entries[n].0) := entries[n].1]
  }

  /** A header name is a key exactly when some entry lowers to it, and every key is lower-case. */
  lemma {:induction false} FromEntriesKeys(entries: seq<(string, string)>, k: string)
    ensures k in FromEntries(entries) <==> exists i :: 0 <= i < |entries| && Lower(entries[i].0) == k
    ensures k in FromEntries(entries) ==> IsLower(k)
  {
    if entries != [] {
      var n := |entries| - 1;
      FromEntriesKeys(entries[..n], k);
      LowerMakesLower(entries[n].0);
      if k in FromEntries(entries[..n]) {
        var i :| 0 <= i < n && Lower(entries[..n][i].0) == k;
        assert entries[i] == entries[..n][i];
      }
      if exists i :: 0 <= i < |entries| && Lower(entries[i].0) == k {
        var i :| 0 <= i < |entries| && Lower(entries[i].0) == k;
        if i < n {
          assert entries[..n][i] == entries[i];
        }
      }
    }
  }

  /** The value stored under a key is that of the last entry whose name lowers to it. */
  lemma {:induction false} FromEntriesLastWins(entries: seq<(string, string)>, i: nat)
    requires i < |entries|
    requires forall j :: i < j < |entries| ==> Lower(entries[j].0) != Lower(entries[i].0)
    ensures Lower(entries[i].0) in FromEntries(entries)
    ensures FromEntries(entries)[Lower(entries[i].0)] == entries[i].1
  {
    var n := |entries| - 1;
    if i < n {
      var init := entries[..n];
      forall j | i < j < |init|
        ensures Lower(init[j].0) != Lower(init[i].0)
      {
        assert init[j] == entries[j];
      }
      FromEntriesLastWins(init, i);
      assert init[i] == entries[i];
    }
  }

  /** Entries that agree on their values and on their lower-cased names give the same map. */
  lemma {:induction false} SameLoweredNames(e1: seq<(string, string)>, e2: seq<(string, string)>)
    requires |e1| == |e2|
    requires forall i :: 0 <= i < |e1| ==> Lower(e1[i].0) == Lower(e2[i].0) && e1[i].1 == e2[i].1
    ensures FromEntries(e1) == FromEntries(e2)
  {
    if e1 != [] {
      var n := |e1| - 1;
      assert forall i :: 0 <= i < n ==> e1[..n][i] == e1[i] && e2[..n][i] == e2[i];
      SameLoweredNames(e1[..n], e2[..n]);
    }
  }

  /** Sending one header name in another case, anywhere in the response, gives the same map. */
  lemma CaseOfNameIrrelevant(xs: seq<(string, string)>, a: string, b: string, v: string, ys: seq<(string, string)>)
    requires |a| == |b|
    requires forall i :: 0 <= i < |a| ==> LowerChar(a[i]) == LowerChar(b[i])
    ensures FromEntries(xs + [(a, v)] + ys) == FromEntries(xs + [(b, v)] + ys)
  {
    LowerIgnoresCase(a, b);
    var ea, eb := xs + [(a, v)] + ys, xs + [(b, v)] + ys;
    forall i | 0 <= i < |ea|
      ensures Lower(ea[i].0) == Lower(eb[i].0) && ea[i].1 == eb[i].1
    {
      if i != |xs| {
        assert ea[i] == eb[i];
      }
    }
    SameLoweredNames(ea, eb);
  }

  function MismatchDesc(expected: string, got: string): string
  {
    "Expected '" + expected + "', got '" + got + "'"
  }

  /** What one policy row contributes: a missing required header, or a present header with the wrong value. */
  function RowFinding(c: Check, h: Headers): Option<Finding>
  {
    var present := c.key in h;
    if !present && c.required then Some(Finding(Missing, c.key, Medium, c.desc))
    else if present && c.expected != "" && Lower(h[c.key]) != c.expected then
      Some(Finding(WrongValue, c.key, Low, MismatchDesc(c.expected, h[c.key])))
    else None
  }

  function AsSeq(o: Option<Finding>): seq<Finding>
  {
    if o.Some? then [o.value] else []
  }

  /** The findings of a run over `rows`, in row order. */
  function Evaluate(rows: seq<Check>, h: Headers): seq<Finding>
  {
    if rows == [] then []
    else
      var n := |rows| - 1;
      Evaluate(rows[..n], h) + AsSeq(RowFinding(rows[n], h))
  }

  /** The findings of the header audit of `url` given its response headers. */
  function Audit(url: string, h: Headers): seq<Finding>
  {
    Evaluate(Policy(url), h)
  }

  function Keys(rows: seq<Check>): (ks: seq<string>)
    ensures |ks| == |rows|
    ensures forall i :: 0 <= i < |rows| ==> ks[i] == rows[i].key
  {
    seq(|rows|, i requires 0 <= i < |rows| => rows[i].key)
  }

  predicate Distinct(ks: seq<string>)
  {
    forall i, j :: 0 <= i < j < |ks| ==> ks[i] != ks[j]
  }

  /** Position of `k` in `ks`, or `|ks|` when absent. */
  function IndexOf(ks: seq<string>, k: string): (r: nat)
    ensures r <= |ks|
    ensures r < |ks| <==> k in ks
    ensures r < |ks| ==> ks[r] == k
  {
    if ks == [] then 0
    else if ks[0] == k then 0
    else 1 + IndexOf(ks[1..], k)
  }

  lemma {:induction false} IndexOfAppend(ks: seq<string>, x: string, k: string)
    requires k in ks
    ensures IndexOf(ks + [x], k) == IndexOf(ks, k)
  {
    if ks[0] != k {
      assert (ks + [x])[1..] == ks[1..] + [x];
      IndexOfAppend(ks[1..], x, k);
    }
  }

  lemma {:induction false} IndexOfNew(ks: seq<string>, x: string)
    requires x !in ks
    ensures IndexOf(ks + [x], x) == |ks|
  {
    if ks != [] {
      assert (ks + [x])[1..] == ks[1..] + [x];
      IndexOfNew(ks[1..], x);
    }
  }

  function WithKey(fs: seq<Finding>, k: string): seq<Finding>
  {
    if fs == [] then []
    else (if fs[0].key == k then [fs[0]] else []) + WithKey(fs[1..], k)
  }

  lemma {:induction false} WithKeyAppend(a: seq<Finding>, b: seq<Finding>, k: string)
    ensures WithKey(a + b, k) == WithKey(a, k) + WithKey(b, k)
  {
    if a == [] {
      assert a + b == b;
    } else {
      var head := if a[0].key == k then [a[0]] else [];
      assert (a + b)[0] == a[0] && (a + b)[1..] == a[1..] + b;
      WithKeyAppend(a[1..], b, k);
      assert WithKey(a + b, k) == head + (WithKey(a[1..], k) + WithKey(b, k));
      assert WithKey(a, k) == head + WithKey(a[1..], k);
    }
  }

  lemma {:induction false} WithKeyNone(fs: seq<Finding>, k: string)
    requires forall j :: 0 <= j < |fs| ==> fs[j].key != k
    ensures WithKey(fs, k) == []
  {
    if fs != [] {
      WithKeyNone(fs[1..], k);
    }
  }

  /** Each row contributes at most one finding, and the findings follow the order of the rows. */
  lemma {:induction false} EvaluateFollowsRows(rows: seq<Check>, h: Headers)
    requires Distinct(Keys(rows))
    ensures |Evaluate(rows, h)| <= |rows|
    ensures forall j :: 0 <= j < |Evaluate(rows, h)| ==> Evaluate(rows, h)[j].key in Keys(rows)
    ensures forall j1, j2 :: 0 <= j1 < j2 < |Evaluate(rows, h)| ==>
              IndexOf(Keys(rows), Evaluate(rows, h)[j1].key) < IndexOf(Keys(rows), Evaluate(rows, h)[j2].key)
  {
    if rows != [] {
      var n := |rows| - 1;
      var init := rows[..n];
      var ks := Keys(rows);
      assert Keys(init) == ks[..n];
      assert ks == Keys(init) + [rows[n].key];
      EvaluateFollowsRows(init, h);
      var prev := Evaluate(init, h);
      var fs := Evaluate(rows, h);
      forall m | 0 <= m < n
        ensures Keys(init)[m] != rows[n].key
      {
        assert Keys(init)[m] == ks[m];
      }
      forall j | 0 <= j < |prev|
        ensures IndexOf(ks, prev[j].key) == IndexOf(Keys(init), prev[j].key) < n
      {
        IndexOfAppend(Keys(init), rows[n].key, prev[j].key);
      }
      IndexOfNew(Keys(init), rows[n].key);
      assert fs == prev + AsSeq(RowFinding(rows[n], h));
      forall j | 0 <= j < |fs|
        ensures fs[j].key in ks && IndexOf(ks, fs[j].key) <= n
        ensures j < |prev| ==> fs[j] == prev[j]
        ensures j == |prev| ==> IndexOf(ks, fs[j].key) == n
      {
        if j < |prev| {
          assert fs[j] == prev[j];
        } else {
          assert fs[j] == RowFinding(rows[n], h).value;
        }
      }
    }
  }

  /** The findings about the key of row `i` are exactly what row `i` contributes. */
  lemma {:induction false} RowContribution(rows: seq<Check>, h: Headers, i: nat)
    requires Distinct(Keys(rows))
    requires i < |rows|
    ensures WithKey(Evaluate(rows, h), rows[i].key) == AsSeq(RowFinding(rows[i], h))
  {
    var n := |rows| - 1;
    var init := rows[..n];
    var ks := Keys(rows);
    assert Keys(init) == ks[..n];
    var k := rows[i].key;
    var last := AsSeq(RowFinding(rows[n], h));
    WithKeyAppend(Evaluate(init, h), last, k);
    if i == n {
      EvaluateFollowsRows(init, h);
      forall m | 0 <= m < n
        ensures Keys(init)[m] != k
      {
        assert Keys(init)[m] == ks[m];
      }
      assert k !in Keys(init);
      WithKeyNone(Evaluate(init, h), k);
      assert last == [] || (|last| == 1 && last[0].key == k);
      assert WithKey(last, k) == last;
    } else {
      assert init[i] == rows[i];
      RowContribution(init, h, i);
      assert ks[i] != ks[n];
      if last != [] {
        assert last[0].key == rows[n].key;
        assert WithKey(last, k) == [] + WithKey(last[1..], k);
      }
    }
  }

  lemma PolicyKeysDistinct(url: string)
    ensures Keys(Policy(url)) == ["content-security-policy", "strict-transport-security", "x-content-type-options",
                                  "x-frame-options", "referrer-policy", "permissions-policy"]
    ensures Distinct(Keys(Policy(url)))
  {
  }

  /** At most six findings, at most one per policy row, in policy order. */
  lemma AuditShape(url: string, h: Headers)
    ensures |Audit(url, h)| <= 6
    ensures forall j :: 0 <= j < |Audit(url, h)| ==> Audit(url, h)[j].key in Keys(Policy(url))
    ensures forall j1, j2 :: 0 <= j1 < j2 < |Audit(url, h)| ==>
              IndexOf(Keys(Policy(url)), Audit(url, h)[j1].key) < IndexOf(Keys(Policy(url)), Audit(url, h)[j2].key)
  {
    PolicyKeysDistinct(url);
    EvaluateFollowsRows(Policy(url), h);
  }

  /** A required header that is absent yields exactly one medium `missing` finding for its key. */
  lemma MissingRequiredHeader(url: string, h: Headers, i: nat)
    requires i < |Policy(url)| && Policy(url)[i].required && Policy(url)[i].key !in h
    ensures WithKey(Audit(url, h), Policy(url)[i].key)
         == [Finding(Missing, Policy(url)[i].key, Medium, Policy(url)[i].desc)]
  {
    PolicyKeysDistinct(url);
    RowContribution(Policy(url), h, i);
  }

  /** Without an HSTS header, a finding for it appears iff the target is `https://`. */
  lemma HstsOnlyForHttps(url: string, h: Headers)
    requires "strict-transport-security" !in h
    ensures StartsWith(url, "https://") ==>
              WithKey(Audit(url, h), "strict-transport-security")
              == [Finding(Missing, "strict-transport-security", Medium, "HSTS enforces HTTPS")]
    ensures !StartsWith(url, "https://") ==> WithKey(Audit(url, h), "strict-transport-security") == []
  {
    PolicyKeysDistinct(url);
    RowContribution(Policy(url), h, 1);
  }

  /** A present `x-content-type-options` is judged by its lower-cased value, never as missing. */
  lemma ContentTypeOptionsValue(url: string, h: Headers)
    requires "x-content-type-options" in h
    ensures Lower(h["x-content-type-options"]) == "nosniff" ==>
              WithKey(Audit(url, h), "x-content-type-options") == []
    ensures Lower(h["x-content-type-options"]) != "nosniff" ==>
              WithKey(Audit(url, h), "x-content-type-options")
              == [Finding(WrongValue, "x-content-type-options", Low,
                          MismatchDesc("nosniff", h["x-content-type-options"]))]
  {
    PolicyKeysDistinct(url);
    RowContribution(Policy(url), h, 2);
  }

  /** `NOSNIFF` passes; `SNIFF` is a low-severity wrong value. */
  lemma NosniffIgnoresCase(url: string, h: Headers)
    requires "x-content-type-options" in h
    ensures h["x-content-type-options"] == "NOSNIFF" ==> WithKey(Audit(url, h), "x-content-type-options") == []
    ensures h["x-content-type-options"] == "SNIFF" ==>
              |WithKey(Audit(url, h), "x-content-type-options")| == 1 &&
              WithKey(Audit(url, h), "x-content-type-options")[0].kind == WrongValue &&
              WithKey(Audit(url, h), "x-content-type-options")[0].severity == Low
  {
    ContentTypeOptionsValue(url, h);
    if h["x-content-type-options"] == "NOSNIFF" {
      assert Lower("NOSNIFF") == "nosniff";
    }
    if h["x-content-type-options"] == "SNIFF" {
      assert |Lower("SNIFF")| != |"nosniff"|;
    }
  }

  /** A present header whose row has no expected value never produces a finding. */
  lemma PresentHeaderWithoutExpectedValue(url: string, h: Headers, i: nat)
    requires i < |Policy(url)| && Policy(url)[i].expected == "" && Policy(url)[i].key in h
    ensures WithKey(Audit(url, h), Policy(url)[i].key) == []
  {
    PolicyKeysDistinct(url);
    RowContribution(Policy(url), h, i);
  }

  datatype FetchReply = Fetched(entries: seq<(string, string)>) | FetchThrew(error: Thrown)

  datatype HeaderAudit = HeaderAudit(headers: Headers, findings: seq<Finding>, outPath: string)

  /** `auditHeaders`: lower-case the response headers, then walk the policy pushing findings. */
  method AuditHeaders(page: FetchReply, url: string, cwd: string) returns (r: Result<HeaderAudit, Thrown>)
    ensures page.FetchThrew? ==> r == Failure(page.error)
    ensures page.Fetched? ==> r.Success?
    ensures r.Success? ==> r.value.headers == FromEntries(page.entries)
    ensures r.Success? ==> r.value.findings == Audit(url, r.value.headers)
    ensures r.Success? ==> r.value.outPath == PathJoin(ReportsDir(cwd), "security-headers.json")
  {
    if page.FetchThrew? {
      return Failure(page.error);
    }
    var headers := FromEntries(page.entries);
    var checks := Policy(url);
    var findings: seq<Finding> := [];
    var i := 0;
    while i < |checks|
      invariant 0 <= i <= |checks|
      invariant findings == Evaluate(checks[..i], headers)
    {
      var c := checks[i];
      var present := c.key in headers;
      if !present && c.required {
        findings := findings + [Finding(Missing, c.key, Medium, c.desc)];
      } else if present && c.expected != "" && Lower(headers[c.key]) != c.expected {
        findings := findings + [Finding(WrongValue, c.key, Low, MismatchDesc(c.expected, headers[c.key]))];
      }
      assert checks[..i + 1][..i] == checks[..i];
      i := i + 1;
    }
    assert checks[..|checks|] == checks;
    r := Success(HeaderAudit(headers, findings, PathJoin(ReportsDir(cwd), "security-headers.json")));
  }

  // ---------------------------------------------------------------------
  // TLS grade via SSL Labs

  const MaxPolls: nat := 10

  /** An SSL Labs `analyze` payload: its status and the rest of the document. */
  datatype Assessment = Assessment(status: string, report: string)

  /** One call of the analyze endpoint: the JSON it answered, or the error fetch threw. */
  datatype Reply = Json(payload: Assessment) | Threw(error: Thrown)

  predicate Settled(a: Assessment)
  {
    a.status == "READY" || a.status == "ERROR"
  }

  predicate Pending(r: Reply)
  {
    r.Json? && !Settled(r.payload)
  }

  datatype TlsReport = TlsReport(data: Assessment, outPath: string)

  /**
   * `checkTLS`: call the analyze endpoint up to ten times, `api(k)` being the
   * reply to call `k`; stop at the first READY or ERROR, wait 8 seconds after every
   * other reply, and keep the last payload seen.  A call that throws ends the
   * check with that error.
   */
  method CheckTls(api: nat -> Reply, cwd: string) returns (r: Result<TlsReport, Thrown>, calls: nat, waits: nat)
    ensures 1 <= calls <= MaxPolls
    ensures forall k :: 0 <= k < calls - 1 ==> Pending(api(k))
    ensures r.Failure? <==> api(calls - 1).Threw?
    ensures r.Failure? ==> r.error == api(calls - 1).error
    ensures r.Success? ==> r.value == TlsReport(api(calls - 1).payload, PathJoin(ReportsDir(cwd), "ssl-labs.json"))
    ensures r.Success? ==> Settled(r.value.data) || calls == MaxPolls
    ensures waits == if r.Success? && !Settled(r.value.data) then calls else calls - 1
  {
    calls, waits := 0, 0;
    var data: Option<Assessment> := None;
    var i := 0;
    while i < MaxPolls
      invariant 0 <= i <= MaxPolls
      invariant calls == i && waits == i
      invariant forall k :: 0 <= k < i ==> Pending(api(k))
      invariant i == 0 <==> data.None?
      invariant i > 0 ==> data == Some(api(i - 1).payload)
    {
      var reply := api(i);
      calls := calls + 1;
      if reply.Threw? {
        r := Failure(reply.error);
        return;
      }
      data := Some(reply.payload);
      if Settled(reply.payload) {
        break;
      }
      waits := waits + 1;
      i := i + 1;
    }
    r := Success(TlsReport(data.value, PathJoin(ReportsDir(cwd), "ssl-labs.json")));
  }

  /** The check ends with an error iff some call throws before any settled reply, within the ten calls. */
  ghost predicate TlsFails(api: nat -> Reply)
  {
    exists k :: 0 <= k < MaxPolls && api(k).Threw? && forall j :: 0 <= j < k ==> Pending(api(j))
  }

  /** The payload `checkTLS` keeps: the first settled reply, or the tenth if none settled. */
  ghost predicate PolledFrom(api: nat -> Reply, data: Assessment)
  {
    exists k :: 0 <= k < MaxPolls && api(k) == Json(data) && (Settled(data) || k == MaxPolls - 1)
                && forall j :: 0 <= j < k ==> Pending(api(j))
  }

  /** A reply stream whose first non-pending reply (within ten) is not an error cannot also fail. */
  lemma {:induction false} PollingSucceeded(api: nat -> Reply, calls: nat)
    requires 1 <= calls <= MaxPolls
    requires forall k :: 0 <= k < calls - 1 ==> Pending(api(k))
    requires api(calls - 1).Json?
    requires Settled(api(calls - 1).payload) || calls == MaxPolls
    ensures !TlsFails(api)
    ensures PolledFrom(api, api(calls - 1).payload)
  {
    forall k | 0 <= k < MaxPolls && api(k).Threw?
      ensures exists j :: 0 <= j < k && !Pending(api(j))
    {
      assert k > calls - 1;
      assert !Pending(api(calls - 1));
    }
  }

  // ---------------------------------------------------------------------
  // ZAP baseline and HAR capture

  /** How an external step went: it finished, or it threw. */
  datatype StepOutcome = Completed | Failed(error: Thrown)

  datatype ZapOutcome = ZapReport(outPath: string) | ZapSkipped(error: string)

  const ZapReportName := "zap-baseline-report.html"

  /** The Docker command line; the reports directory is mounted as the scanner's working directory. */
  function ZapCommand(outDir: string, url: string): seq<string>
  {
    ["run", "--rm", "-v", outDir + ":/zap/wrk:Z", "owasp/zap2docker-stable",
     "zap-baseline.py", "-t", url, "-r", ZapReportName, "-I"]
  }

  /** The scanner is aimed at the target and writes the report file whose path `zapBaseline` returns. */
  lemma ZapCommandWritesReport(cwd: string, url: string)
    ensures var cmd := ZapCommand(ReportsDir(cwd), url);
            cmd[6] == "-t" && cmd[7] == url && cmd[8] == "-r" &&
            cmd[3] == ReportsDir(cwd) + ":/zap/wrk:Z" &&
            ZapBaseline(Completed, cwd) == ZapReport(ReportsDir(cwd) + "/" + cmd[9])
  {
    InReportsDir(cwd, ZapReportName);
  }

  /** `zapBaseline` never throws: a failed Docker run becomes an `error` entry without a path. */
  function ZapBaseline(docker: StepOutcome, cwd: string): (z: ZapOutcome)
    ensures z.ZapReport? <==> docker.Completed?
    ensures z.ZapReport? ==> z.outPath == PathJoin(ReportsDir(cwd), ZapReportName)
    ensures docker.Failed? ==> z == ZapSkipped(Describe(docker.error))
  {
    match docker
    case Completed => ZapReport(PathJoin(ReportsDir(cwd), ZapReportName))
    case Failed(e) => ZapSkipped(Describe(e))
  }

  /** `captureHar`, an opaque browser session that may throw. */
  function CaptureHar(browser: StepOutcome, cwd: string): (r: Result<string, Thrown>)
    ensures r.Success? <==> browser.Completed?
    ensures r.Success? ==> r.value == PathJoin(ReportsDir(cwd), "traffic.har")
    ensures browser.Failed? ==> r.error == browser.error
  {
    match browser
    case Completed => Success(PathJoin(ReportsDir(cwd), "traffic.har"))
    case Failed(e) => Failure(e)
  }
}
