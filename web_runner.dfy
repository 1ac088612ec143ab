/**
 * `runWeb`: hands the web options to the Playwright test runner through the
 * environment of an `npx playwright test` process, which the Playwright
 * configuration and the smoke tests read back.
 */
module WebRunner {
  import opened Js

  /** The options object; a missing or empty url or grep is `""`. */
  datatype WebOptions = WebOptions(url: string, a11y: Value, a11yStrict: Value, lenient: Value, grep: string)

  type Env = map<string, string>

  /** A process started with `execa(file, args, { env })`. */
  datatype Launch = Launch(file: string, args: seq<string>, env: Env)

  const OwnKeys: set<string> := {"TARGET_URL", "A11Y_ENABLED", "A11Y_STRICT", "LENIENT"}

  /** `b ? '1' : '0'` */
  function Bit(b: bool): (s: string)
    ensures s == "1" || s == "0"
    ensures s == "1" <==> b
  {
    if b then "1" else "0"
  }

  /**
   * `{ ...process.env, TARGET_URL, A11Y_ENABLED, A11Y_STRICT, LENIENT }`,
   * with `a11y` defaulting to on and `a11yStrict`, `lenient` to off.
   */
  function RunnerEnv(inherited: Env, o: WebOptions): (e: Env)
    ensures e.Keys == inherited.Keys + OwnKeys
    ensures forall k :: k in inherited && k !in OwnKeys ==> e[k] == inherited[k]
    ensures e["TARGET_URL"] == o.url
    ensures e["A11Y_ENABLED"] == Bit(Flag(o.a11y, true))
    ensures e["A11Y_STRICT"] == Bit(Flag(o.a11yStrict, false))
    ensures e["LENIENT"] == Bit(Flag(o.lenient, false))
  {
    inherited["TARGET_URL" := o.url]["A11Y_ENABLED" := Bit(Flag(o.a11y, true))]
             ["A11Y_STRICT" := Bit(Flag(o.a11yStrict, false))]["LENIENT" := Bit(Flag(o.lenient, false))]
  }

  // ---------------------------------------------------------------------
  // The readers on the Playwright side

  /** `process.env.A11Y_ENABLED !== '0'` in the smoke tests. */
  predicate SmokeA11yEnabled(env: Env)
  {
    !("A11Y_ENABLED" in env && env["A11Y_ENABLED"] == "0")
  }

  /** `process.env.A11Y_STRICT === '1'` in the smoke tests. */
  predicate SmokeA11yStrict(env: Env)
  {
    "A11Y_STRICT" in env && env["A11Y_STRICT"] == "1"
  }

  /** `process.env.LENIENT === '1'` in the Playwright configuration. */
  predicate ConfigLenient(env: Env)
  {
    "LENIENT" in env && env["LENIENT"] == "1"
  }

  /** `process.env.TARGET_URL || 'https://example.com'` in the Playwright configuration. */
  function ConfigBaseUrl(env: Env): string
  {
    if "TARGET_URL" in env && env["TARGET_URL"] != "" then env["TARGET_URL"] else "https://example.com"
  }

  /** The configured action timeout, in milliseconds. */
  function ActionTimeout(env: Env): (ms: nat)
    ensures ms == 15000 || ms == 45000
    ensures ms == 45000 <==> ConfigLenient(env)
  {
    if ConfigLenient(env) then 45000 else 15000
  }

  /** The configured navigation timeout, in milliseconds. */
  function NavigationTimeout(env: Env): (ms: nat)
    ensures ms == 30000 || ms == 60000
    ensures ms == 60000 <==> ConfigLenient(env)
  {
    if ConfigLenient(env) then 60000 else 30000
  }

  /**
   * Whatever the inherited environment holds, the tests read back exactly
   * the options the runner was given: accessibility checks, strict mode,
   * lenient timeouts and the target.
   */
  lemma {:induction false} OptionsReachTests(inherited: Env, o: WebOptions)
    requires o.url != ""
    ensures SmokeA11yEnabled(RunnerEnv(inherited, o)) <==> Flag(o.a11y, true)
    ensures SmokeA11yStrict(RunnerEnv(inherited, o)) <==> Flag(o.a11yStrict, false)
    ensures ConfigLenient(RunnerEnv(inherited, o)) <==> Flag(o.lenient, false)
    ensures ConfigBaseUrl(RunnerEnv(inherited, o)) == o.url
  {
    var e := RunnerEnv(inherited, o);
    assert e["TARGET_URL"] == o.url;
    assert e["A11Y_ENABLED"] == Bit(Flag(o.a11y, true));
    assert e["A11Y_STRICT"] == Bit(Flag(o.a11yStrict, false));
    assert e["LENIENT"] == Bit(Flag(o.lenient, false));
  }

  /** The timeouts the Playwright configuration picks for the options the runner was given. */
  lemma {:induction false} RunnerTimeouts(inherited: Env, o: WebOptions)
    ensures ActionTimeout(RunnerEnv(inherited, o)) == if Flag(o.lenient, false) then 45000 else 15000
    ensures NavigationTimeout(RunnerEnv(inherited, o)) == if Flag(o.lenient, false) then 60000 else 30000
  {
    assert RunnerEnv(inherited, o)["LENIENT"] == Bit(Flag(o.lenient, false));
  }

  /** Lenient mode triples the action timeout and doubles the navigation timeout. */
  lemma LenientWidensTimeouts(inherited: Env, o: WebOptions)
    ensures Flag(o.lenient, false) ==>
              ActionTimeout(RunnerEnv(inherited, o)) == 3 * ActionTimeout(RunnerEnv(inherited, o.(lenient := Bool(false))))
    ensures Flag(o.lenient, false) ==>
              NavigationTimeout(RunnerEnv(inherited, o)) == 2 * NavigationTimeout(RunnerEnv(inherited, o.(lenient := Bool(false))))
    ensures !Flag(o.lenient, false) ==> ActionTimeout(RunnerEnv(inherited, o)) == 15000
  {
    var e := RunnerEnv(inherited, o);
    var f := RunnerEnv(inherited, o.(lenient := Bool(false)));
    assert e["LENIENT"] == Bit(Flag(o.lenient, false));
    assert f["LENIENT"] == "0";
  }

  const TestArgs: seq<string> := ["playwright", "test", "--reporter=list"]

  /** `runWeb`: `npx playwright test --reporter=list`, then `-g <grep>` when a grep pattern is given. */
  method RunWeb(inherited: Env, o: WebOptions) returns (l: Launch)
    ensures l.file == "npx" && l.env == RunnerEnv(inherited, o)
    ensures |l.args| >= 3 && l.args[..3] == TestArgs
    ensures o.grep == "" ==> l.args == TestArgs
    ensures o.grep != "" ==> l.args == TestArgs + ["-g", o.grep]
  {
    var env := RunnerEnv(inherited, o);
    var args := TestArgs;
    if o.grep != "" {
      args := args + ["-g", o.grep];
    }
    assert args[..3] == TestArgs;
    l := Launch("npx", args, env);
  }
}
