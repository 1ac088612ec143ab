/**
 * `runSecurity`: the suite that runs the enabled security checks against one
 * target in a fixed order and writes a summary when all of them came back.
 */
module SecuritySuite {
  import opened Js
  import opened Security

  /** The options object; a missing or empty `url` is `""`. */
  datatype SecurityOptions = SecurityOptions(url: string, tls: Value, headers: Value, zap: Value, har: Value)

  /** What the checks meet: the target's headers, whether `new URL(url)` parses, SSL Labs, the browser, Docker. */
  datatype SuiteEnv = SuiteEnv(cwd: string, page: FetchReply, hostname: Result<string, Thrown>,
                               ssl: nat -> Reply, browser: StepOutcome, docker: StepOutcome)

  datatype CheckName = HeadersCheck | TlsCheck | HarCheck | ZapCheck

  datatype CheckResult =
    | HeadersResult(audit: HeaderAudit)
    | TlsResult(tls: TlsReport)
    | HarResult(harPath: string)
    | ZapResult(zap: ZapOutcome)

  /** A finished run hands back its results; the summary file is written only then. */
  datatype SuiteOutcome =
    | Finished(results: seq<(CheckName, CheckResult)>, summaryPath: string)
    | Aborted(error: Thrown)

  const MissingUrl := Thrown("Missing --url", "Error: Missing --url")

  /** The destructured switches: `tls`, `headers` and `har` default to on, `zap` to off. */
  datatype Switches = Switches(headers: bool, tls: bool, har: bool, zap: bool)

  function SwitchesOf(o: SecurityOptions): Switches
  {
    Switches(Flag(o.headers, true), Flag(o.tls, true), Flag(o.har, true), Flag(o.zap, false))
  }

  /** The fixed order in which the checks run. */
  const Order: seq<CheckName> := [HeadersCheck, TlsCheck, HarCheck, ZapCheck]

  /** A check's position in `Order`. */
  function Rank(c: CheckName): nat
  {
    match c
    case HeadersCheck => 0
    case TlsCheck => 1
    case HarCheck => 2
    case ZapCheck => 3
  }

  predicate On(on: Switches, c: CheckName)
  {
    match c
    case HeadersCheck => on.headers
    case TlsCheck => on.tls
    case HarCheck => on.har
    case ZapCheck => on.zap
  }

  /** The `k`-th check of the order, when it is switched on. */
  function Group(on: Switches, k: nat): seq<CheckName>
  {
    if k < |Order| && On(on, Order[k]) then [Order[k]] else []
  }

  /** The switched-on checks among the first `k` of the order. */
  function Stage(on: Switches, k: nat): seq<CheckName>
  {
    if k == 0 then [] else Stage(on, k - 1) + Group(on, k - 1)
  }

  /** The checks a run performs, in the order it performs them. */
  function Planned(o: SecurityOptions): seq<CheckName>
  {
    Stage(SwitchesOf(o), |Order|)
  }

  /** Strictly increasing ranks: the checks appear in the fixed order, none twice. */
  predicate InOrder(s: seq<CheckName>)
  {
    forall i, j :: 0 <= i < j < |s| ==> Rank(s[i]) < Rank(s[j])
  }

  /** A stage holds exactly the switched-on checks ranked below `k`, in order. */
  lemma {:induction false} StageMembers(on: Switches, k: nat)
    ensures forall c :: c in Stage(on, k) <==> Rank(c) < k && On(on, c)
    ensures InOrder(Stage(on, k))
  {
    if k > 0 {
      StageMembers(on, k - 1);
      var s, g := Stage(on, k - 1), Group(on, k - 1);
      assert Stage(on, k) == s + g;
      forall c ensures c in g <==> Rank(c) == k - 1 && On(on, c) {
        if k - 1 < |Order| {
          assert Rank(Order[k - 1]) == k - 1;
          assert Rank(c) == k - 1 <==> c == Order[k - 1];
        }
      }
      forall i, j | 0 <= i < j < |s + g| ensures Rank((s + g)[i]) < Rank((s + g)[j]) {
        if j >= |s| {
          assert s[i] in s;
          assert g[j - |s|] in g;
        }
      }
    }
  }

  /** An earlier stage is a prefix of a later one. */
  lemma {:induction false} StagePrefix(on: Switches, k: nat, m: nat)
    requires k <= m
    ensures Stage(on, k) <= Stage(on, m)
  {
    if k < m {
      StagePrefix(on, k, m - 1);
    }
  }

  /** A check is planned exactly when its option is truthy after defaulting; the plan keeps the fixed order. */
  lemma {:induction false} PlannedIsEnabledChecks(o: SecurityOptions)
    ensures HeadersCheck in Planned(o) <==> Flag(o.headers, true)
    ensures TlsCheck in Planned(o) <==> Flag(o.tls, true)
    ensures HarCheck in Planned(o) <==> Flag(o.har, true)
    ensures ZapCheck in Planned(o) <==> Flag(o.zap, false)
    ensures InOrder(Planned(o))
  {
    StageMembers(SwitchesOf(o), |Order|);
  }

  /** With no switch given, headers, tls and har run, in that order, and zap does not. */
  lemma {:induction false} DefaultPlan(url: string)
    ensures Planned(SecurityOptions(url, Undefined, Undefined, Undefined, Undefined)) == [HeadersCheck, TlsCheck, HarCheck]
  {
    var on := SwitchesOf(SecurityOptions(url, Undefined, Undefined, Undefined, Undefined));
    assert Stage(on, 1) == [HeadersCheck];
    assert Stage(on, 2) == [HeadersCheck, TlsCheck];
    assert Stage(on, 3) == [HeadersCheck, TlsCheck, HarCheck];
  }

  /** Whether a check throws, given what it meets. */
  ghost predicate Fails(env: SuiteEnv, c: CheckName)
  {
    match c
    case HeadersCheck => env.page.FetchThrew?
    case TlsCheck => env.hostname.Failure? || TlsFails(env.ssl)
    case HarCheck => env.browser.Failed?
    case ZapCheck => false
  }

  /**
   * The error a check throws, given what it meets: the fetch error, the
   * `TypeError` of `new URL`, the first SSL Labs call that threw (before any
   * settled reply), or the browser's error.  `zapBaseline` throws nothing.
   */
  ghost predicate FailsWith(env: SuiteEnv, c: CheckName, e: Thrown)
  {
    match c
    case HeadersCheck => env.page == FetchThrew(e)
    case TlsCheck =>
      if env.hostname.Failure? then e == env.hostname.error
      else exists k :: 0 <= k < MaxPolls && env.ssl(k) == Threw(e) && forall j :: 0 <= j < k ==> Pending(env.ssl(j))
    case HarCheck => env.browser == Failed(e)
    case ZapCheck => false
  }

  /** A check that throws throws one error, and only a check that fails throws one. */
  lemma {:induction false} FailsWithUnique(env: SuiteEnv, c: CheckName, e1: Thrown, e2: Thrown)
    requires FailsWith(env, c, e1) && FailsWith(env, c, e2)
    ensures e1 == e2 && Fails(env, c)
  {
    if c == TlsCheck && env.hostname.Success? {
      var k1 :| 0 <= k1 < MaxPolls && env.ssl(k1) == Threw(e1) && forall j :: 0 <= j < k1 ==> Pending(env.ssl(j));
      var k2 :| 0 <= k2 < MaxPolls && env.ssl(k2) == Threw(e2) && forall j :: 0 <= j < k2 ==> Pending(env.ssl(j));
      ThrowEndsPending(env.ssl, k1, k2);
      ThrowEndsPending(env.ssl, k2, k1);
      assert TlsFails(env.ssl);
    }
  }

  /** A call that threw is not inside a run of pending replies. */
  lemma ThrowEndsPending(api: nat -> Reply, k: nat, m: nat)
    requires api(k).Threw? && forall j :: 0 <= j < m ==> Pending(api(j))
    ensures m <= k
  {
  }

  function Names(results: seq<(CheckName, CheckResult)>): (ns: seq<CheckName>)
    ensures |ns| == |results|
    ensures forall i :: 0 <= i < |results| ==> ns[i] == results[i].0
  {
    seq(|results|, i requires 0 <= i < |results| => results[i].0)
  }

  /** A result entry is what its check produces for this target and environment. */
  ghost predicate Produced(url: string, env: SuiteEnv, entry: (CheckName, CheckResult))
  {
    match entry
    case (HeadersCheck, HeadersResult(a)) =>
      env.page.Fetched? && a.headers == FromEntries(env.page.entries) && a.findings == Audit(url, a.headers)
      && a.outPath == PathJoin(ReportsDir(env.cwd), "security-headers.json")
    case (TlsCheck, TlsResult(t)) =>
      PolledFrom(env.ssl, t.data) && t.outPath == PathJoin(ReportsDir(env.cwd), "ssl-labs.json")
    case (HarCheck, HarResult(p)) => p == PathJoin(ReportsDir(env.cwd), "traffic.har")
    case (ZapCheck, ZapResult(z)) => z == ZapBaseline(env.docker, env.cwd)
    case _ => false
  }

  /** None of `ran` throws. */
  ghost predicate Passed(env: SuiteEnv, ran: seq<CheckName>)
  {
    forall c :: c in ran ==> !Fails(env, c)
  }

  ghost predicate AllProduced(url: string, env: SuiteEnv, results: seq<(CheckName, CheckResult)>)
  {
    forall i :: 0 <= i < |results| ==> Produced(url, env, results[i])
  }

  /** After the first `k` groups: `ran` are the checks begun, all passed and each left its result. */
  ghost predicate Progressed(url: string, on: Switches, env: SuiteEnv, k: nat, ran: seq<CheckName>,
                             results: seq<(CheckName, CheckResult)>)
  {
    ran == Stage(on, k) && Names(results) == ran && AllProduced(url, env, results) && Passed(env, ran)
  }

  /** `ran` is a prefix of the plan whose last check threw `e` and whose earlier checks all passed. */
  ghost predicate StoppedAt(on: Switches, env: SuiteEnv, ran: seq<CheckName>, e: Thrown)
  {
    ran <= Stage(on, |Order|) && |ran| > 0 && Fails(env, ran[|ran| - 1]) && FailsWith(env, ran[|ran| - 1], e)
    && Passed(env, ran[..|ran| - 1])
  }

  /** The `if (tls)` block: `new URL(url).hostname`, which may throw, then `checkTLS`. */
  method TlsStep(env: SuiteEnv) returns (r: Result<TlsReport, Thrown>)
    ensures r.Failure? <==> Fails(env, TlsCheck)
    ensures r.Failure? ==> FailsWith(env, TlsCheck, r.error)
    ensures r.Success? ==> PolledFrom(env.ssl, r.value.data)
    ensures r.Success? ==> r.value.outPath == PathJoin(ReportsDir(env.cwd), "ssl-labs.json")
  {
    if env.hostname.Failure? {
      return Failure(env.hostname.error);
    }
    var calls, waits;
    r, calls, waits := CheckTls(env.ssl, env.cwd);
    if r.Failure? {
      assert env.ssl(calls - 1) == Threw(r.error);
    } else {
      PollingSucceeded(env.ssl, calls);
    }
  }

  /** One check's call: what it throws, or the result stored under its name. */
  method RunCheck(c: CheckName, url: string, env: SuiteEnv) returns (r: Result<CheckResult, Thrown>)
    ensures r.Failure? <==> Fails(env, c)
    ensures r.Failure? ==> FailsWith(env, c, r.error)
    ensures r.Success? ==> Produced(url, env, (c, r.value))
  {
    match c
    case HeadersCheck =>
      var a := AuditHeaders(env.page, url, env.cwd);
      r := if a.Success? then Success(HeadersResult(a.value)) else Failure(a.error);
    case TlsCheck =>
      var t := TlsStep(env);
      r := if t.Success? then Success(TlsResult(t.value)) else Failure(t.error);
    case HarCheck =>
      var h := CaptureHar(env.browser, env.cwd);
      r := if h.Success? then Success(HarResult(h.value)) else Failure(h.error);
    case ZapCheck =>
      r := Success(ZapResult(ZapBaseline(env.docker, env.cwd)));
  }

  /** A throw in group `k`'s check ends the run there, with that error, and the plan as a whole fails. */
  lemma {:induction false} StopsAtThrow(url: string, on: Switches, env: SuiteEnv, k: nat, c: CheckName,
                                        ran: seq<CheckName>, results: seq<(CheckName, CheckResult)>, e: Thrown)
    requires k < |Order| && Group(on, k) == [c] && Progressed(url, on, env, k, ran, results)
    requires Fails(env, c) && FailsWith(env, c, e)
    ensures StoppedAt(on, env, ran + [c], e) && !Passed(env, Stage(on, |Order|))
  {
    StagePrefix(on, k + 1, |Order|);
    assert Stage(on, k + 1) == ran + [c];
    assert (ran + [c])[..|ran|] == ran;
    assert c in Stage(on, |Order|);
  }

  /** A passing check of group `k` extends the progress by one group. */
  lemma {:induction false} GoesOnAfterPass(url: string, on: Switches, env: SuiteEnv, k: nat, c: CheckName,
                                           ran: seq<CheckName>, results: seq<(CheckName, CheckResult)>, v: CheckResult)
    requires k < |Order| && Group(on, k) == [c] && Progressed(url, on, env, k, ran, results)
    requires !Fails(env, c) && Produced(url, env, (c, v))
    ensures Progressed(url, on, env, k + 1, ran + [c], results + [(c, v)])
  {
    assert Names(results + [(c, v)]) == Names(results) + [c];
  }

  /**
   * The switched-on block of group `k`: its check runs; a throw stops the
   * run with `ran` ending in that check, otherwise its result is stored.
   */
  method Take(url: string, on: Switches, env: SuiteEnv, k: nat, c: CheckName, ran: seq<CheckName>,
              results: seq<(CheckName, CheckResult)>)
    returns (ran': seq<CheckName>, results': seq<(CheckName, CheckResult)>, stop: Option<Thrown>)
    requires k < |Order| && Group(on, k) == [c] && Progressed(url, on, env, k, ran, results)
    ensures ran' == ran + [c]
    ensures stop.None? ==> Progressed(url, on, env, k + 1, ran', results')
    ensures stop.Some? ==> StoppedAt(on, env, ran', stop.value) && !Passed(env, Stage(on, |Order|))
  {
    ran' := ran + [c];
    var r := RunCheck(c, url, env);
    if r.Failure? {
      StopsAtThrow(url, on, env, k, c, ran, results, r.error);
      return ran', results, Some(r.error);
    }
    GoesOnAfterPass(url, on, env, k, c, ran, results, r.value);
    results' := results + [(c, r.value)];
    stop := None;
  }

  /**
   * One `if` block of `runSecurity`: when block `k`'s switch is on, its
   * check runs (see `Take`); otherwise nothing happens.
   */
  method Block(url: string, on: Switches, env: SuiteEnv, k: nat, ran: seq<CheckName>,
               results: seq<(CheckName, CheckResult)>)
    returns (ran': seq<CheckName>, results': seq<(CheckName, CheckResult)>, stop: Option<Thrown>)
    requires k < |Order| && Progressed(url, on, env, k, ran, results)
    ensures ran' == ran + Group(on, k)
    ensures stop.None? ==> Progressed(url, on, env, k + 1, ran', results')
    ensures stop.Some? ==> StoppedAt(on, env, ran', stop.value) && !Passed(env, Stage(on, |Order|))
  {
    if On(on, Order[k]) {
      ran', results', stop := Take(url, on, env, k, Order[k], ran, results);
    } else {
      assert Stage(on, k + 1) == ran;
      ran', results', stop := ran, results, None;
    }
  }

  /**
   * The four `if` blocks of `runSecurity`: the switched-on checks run in
   * the order headers, tls, har, zap and the first that throws stops the run.
   */
  method RunChecks(url: string, on: Switches, env: SuiteEnv)
    returns (ran: seq<CheckName>, results: seq<(CheckName, CheckResult)>, stop: Option<Thrown>)
    ensures stop.None? ==> Progressed(url, on, env, |Order|, ran, results)
    ensures stop.Some? ==> StoppedAt(on, env, ran, stop.value) && !Passed(env, Stage(on, |Order|))
  {
    assert Progressed(url, on, env, 0, [], []);
    ran, results, stop := Block(url, on, env, 0, [], []);         // if (headers) ...
    if stop.Some? {
      return;
    }
    ran, results, stop := Block(url, on, env, 1, ran, results);   // if (tls) ...
    if stop.Some? {
      return;
    }
    ran, results, stop := Block(url, on, env, 2, ran, results);   // if (har) ...
    if stop.Some? {
      return;
    }
    ran, results, stop := Block(url, on, env, 3, ran, results);   // if (zap) ...
  }

  /**
   * `runSecurity`: a missing url throws before any check; otherwise the
   * switched-on checks run in the order headers, tls, har, zap, each result
   * is stored under its name, and the first check that throws aborts the run
   * before the summary is written.  `ran` lists the checks begun.
   */
  method RunSecurity(o: SecurityOptions, env: SuiteEnv) returns (outcome: SuiteOutcome, ran: seq<CheckName>)
    ensures o.url == "" ==> outcome == Aborted(MissingUrl) && ran == []
    ensures outcome.Finished? <==> o.url != "" && Passed(env, Planned(o))
    ensures outcome.Finished? ==> ran == Planned(o) && Names(outcome.results) == Planned(o)
    ensures outcome.Finished? ==> AllProduced(o.url, env, outcome.results)
    ensures outcome.Finished? ==> outcome.summaryPath == PathJoin(ReportsDir(env.cwd), "security-summary.json")
    ensures outcome.Aborted? && o.url != "" ==> StoppedAt(SwitchesOf(o), env, ran, outcome.error)
  {
    if o.url == "" {
      return Aborted(MissingUrl), [];
    }
    var results, stop;
    ran, results, stop := RunChecks(o.url, SwitchesOf(o), env);
    if stop.Some? {
      return Aborted(stop.value), ran;
    }
    outcome := Finished(results, PathJoin(ReportsDir(env.cwd), "security-summary.json"));
  }

  /** Only the ZAP scan swallows its failure: how Docker fares never decides whether a run finishes. */
  lemma ZapNeverAborts(o: SecurityOptions, env: SuiteEnv, d: StepOutcome)
    ensures Passed(env, Planned(o)) <==> Passed(env.(docker := d), Planned(o))
  {
  }

  /** The other checks let their errors through: an enabled check that throws keeps the run from finishing. */
  lemma {:induction false} EnabledThrowAborts(o: SecurityOptions, env: SuiteEnv)
    ensures Flag(o.headers, true) && env.page.FetchThrew? ==> !Passed(env, Planned(o))
    ensures Flag(o.tls, true) && (env.hostname.Failure? || TlsFails(env.ssl)) ==> !Passed(env, Planned(o))
    ensures Flag(o.har, true) && env.browser.Failed? ==> !Passed(env, Planned(o))
  {
    PlannedIsEnabledChecks(o);
  }
}
