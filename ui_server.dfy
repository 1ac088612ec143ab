/**
 * The web UI's run endpoints: each checks the JSON body for a url, builds the
 * command line for the project's own CLI from the body's switches, runs it in
 * the project root and answers with its standard output or its error.
 */
module UiServer {
  import opened Js
  import SecuritySuite

  /** A JSON answer: `{ ok: true, output }`, a 400 `{ ok: false, error }` or a 500 `{ ok: false, error, output }`. */
  datatype ApiReply =
    | Succeeded(output: string)
    | BadRequest(error: string)
    | ServerError(error: string, output: string)

  /** A child process to start: `execa(file, args, { cwd })`. */
  datatype Process = Process(file: string, args: seq<string>, cwd: string)

  /** How a started process ends: its standard output, or the error execa raises and the output it carries. */
  datatype ProcOutcome = Exited(stdout: string) | ExecFailed(error: Thrown, stdout: string)

  const MissingUrl := "Missing url"

  /** The answer for a process that was started. */
  function Answer(p: ProcOutcome): (a: ApiReply)
    ensures a.Succeeded? <==> p.Exited?
    ensures a.Succeeded? ==> a.output == p.stdout
    ensures p.ExecFailed? ==> a == ServerError(Describe(p.error), p.stdout)
  {
    match p
    case Exited(out) => Succeeded(out)
    case ExecFailed(e, out) => ServerError(Describe(e), out)
  }

  /** `path.join(rootDir, 'src', 'index.js')` */
  function EntryPoint(root: string): string
  {
    PathJoin(PathJoin(root, "src"), "index.js")
  }

  /** `node <entry> <command> --url <url>` */
  function CliPrefix(root: string, cmd: string, url: string): (p: seq<string>)
    ensures |p| == 5 && p[0] == "node" && p[1] == EntryPoint(root) && p[2] == cmd && p[3] == "--url" && p[4] == url
  {
    ["node", EntryPoint(root), cmd, "--url", url]
  }

  /** One conditional push. */
  function Opt(on: bool, name: string): seq<string>
  {
    if on then [name] else []
  }

  /** The `names` whose switch is on, in their order. */
  function Switched(names: seq<string>, on: seq<bool>): (s: seq<string>)
    requires |names| == |on|
    ensures |s| <= |names|
  {
    if |names| == 0 then []
    else Opt(on[0], names[0]) + Switched(names[1..], on[1..])
  }

  /** A name is among the switched ones exactly when one of its occurrences is switched on. */
  lemma {:induction false} SwitchedMembers(names: seq<string>, on: seq<bool>, x: string)
    requires |names| == |on|
    ensures x in Switched(names, on) <==> exists i :: 0 <= i < |names| && names[i] == x && on[i]
  {
    if |names| > 0 {
      SwitchedMembers(names[1..], on[1..], x);
      if x in Switched(names[1..], on[1..]) {
        var i :| 0 <= i < |names| - 1 && names[1..][i] == x && on[1..][i];
        assert names[i + 1] == x && on[i + 1];
      }
      if exists i :: 0 <= i < |names| && names[i] == x && on[i] {
        var i :| 0 <= i < |names| && names[i] == x && on[i];
        if i > 0 {
          assert names[1..][i - 1] == x && on[1..][i - 1];
        }
      }
    }
  }

  /** With distinct names, each name is switched exactly when its own switch is on. */
  lemma {:induction false} SwitchedDistinct(names: seq<string>, on: seq<bool>)
    requires |names| == |on|
    requires forall i, j :: 0 <= i < j < |names| ==> names[i] != names[j]
    ensures forall i :: 0 <= i < |names| ==> (names[i] in Switched(names, on) <==> on[i])
  {
    forall i | 0 <= i < |names|
      ensures names[i] in Switched(names, on) <==> on[i]
    {
      SwitchedMembers(names, on, names[i]);
      if names[i] in Switched(names, on) {
        var j :| 0 <= j < |names| && names[j] == names[i] && on[j];
        assert j == i;
      }
    }
  }

  /** Three names: one conditional push each, in order. */
  lemma SwitchedThree(names: seq<string>, a: bool, b: bool, c: bool)
    requires |names| == 3
    ensures Switched(names, [a, b, c]) == Opt(a, names[0]) + Opt(b, names[1]) + Opt(c, names[2])
  {
    assert [a, b, c][1..] == [b, c] && [b, c][1..] == [c] && [c][1..] == [];
    assert Switched(names[2..], [c]) == Opt(c, names[2]) + Switched(names[2..][1..], []);
    assert Switched(names[1..], [b, c]) == Opt(b, names[1]) + Switched(names[1..][1..], [c]);
  }

  /** `if (grep) args.push('--grep', grep)` */
  function GrepArgs(grep: string): seq<string>
  {
    if grep != "" then ["--grep", grep] else []
  }

  // ---------------------------------------------------------------------
  // POST /api/run/web

  /** The JSON body; a missing url or grep, or an empty one, is `""`. */
  datatype WebRequest = WebRequest(url: string, lenient: Value, a11y: Value, a11yStrict: Value, grep: string)

  const WebSwitchNames: seq<string> := ["--lenient", "--no-a11y", "--a11y-strict"]

  /** `lenient` defaults to on, `a11y` is switched off only by an explicit `false`, `a11yStrict` defaults to off. */
  function WebSwitchesOn(req: WebRequest): seq<bool>
  {
    [Flag(req.lenient, true), req.a11y == Bool(false), Flag(req.a11yStrict, false)]
  }

  function WebSwitches(req: WebRequest): seq<string>
  {
    Switched(WebSwitchNames, WebSwitchesOn(req))
  }

  function WebArgv(root: string, req: WebRequest): seq<string>
  {
    CliPrefix(root, "web", req.url) + WebSwitches(req) + GrepArgs(req.grep)
  }

  /** Each web switch is on the command line exactly when the body asks for it. */
  lemma {:induction false} WebSwitchesRead(req: WebRequest)
    ensures "--lenient" in WebSwitches(req) <==> Flag(req.lenient, true)
    ensures "--no-a11y" in WebSwitches(req) <==> req.a11y == Bool(false)
    ensures "--a11y-strict" in WebSwitches(req) <==> Flag(req.a11yStrict, false)
    ensures |WebSwitches(req)| <= 3
  {
    var names := WebSwitchNames;
    assert names[0][2] == 'l' && names[1][2] == 'n' && names[2][2] == 'a';
    SwitchedDistinct(names, WebSwitchesOn(req));
    assert names[0] == "--lenient" && names[1] == "--no-a11y" && names[2] == "--a11y-strict";
  }

  /** A body that names only a url gets the lenient run with accessibility checks on and warn-only. */
  lemma {:induction false} WebDefaults(root: string, url: string)
    ensures WebArgv(root, WebRequest(url, Undefined, Undefined, Undefined, "")) == CliPrefix(root, "web", url) + ["--lenient"]
  {
    var req := WebRequest(url, Undefined, Undefined, Undefined, "");
    assert WebSwitches(req) == ["--lenient"] by {
      var on := [true, false, false];
      assert Switched(WebSwitchNames[2..], on[2..]) == [];
      assert Switched(WebSwitchNames[1..], on[1..]) == [];
    }
  }

  method PostWeb(root: string, req: WebRequest, run: Process -> ProcOutcome)
    returns (reply: ApiReply, spawned: Option<Process>)
    ensures req.url == "" ==> reply == BadRequest(MissingUrl) && spawned.None?
    ensures req.url != "" ==> spawned == Some(Process("node", WebArgv(root, req)[1..], root))
    ensures req.url != "" ==> reply == Answer(run(spawned.value))
  {
    if req.url == "" {
      return BadRequest(MissingUrl), None;
    }
    var prefix := CliPrefix(root, "web", req.url);
    var on := WebSwitchesOn(req);
    var args := prefix;
    if on[0] {
      args := args + ["--lenient"];
    }
    assert args == prefix + Opt(on[0], "--lenient");
    if on[1] {
      args := args + ["--no-a11y"];
    }
    assert args == prefix + Opt(on[0], "--lenient") + Opt(on[1], "--no-a11y");
    if on[2] {
      args := args + ["--a11y-strict"];
    }
    ghost var switches := Opt(on[0], "--lenient") + Opt(on[1], "--no-a11y") + Opt(on[2], "--a11y-strict");
    assert args == prefix + switches;
    SwitchedThree(WebSwitchNames, on[0], on[1], on[2]);
    assert on == [on[0], on[1], on[2]];
    assert WebSwitchNames[0] == "--lenient" && WebSwitchNames[1] == "--no-a11y" && WebSwitchNames[2] == "--a11y-strict";
    assert switches == WebSwitches(req);
    if req.grep != "" {
      args := args + ["--grep", req.grep];
    }
    assert args == WebArgv(root, req);
    var p := Process(args[0], args[1..], root);
    reply := Answer(run(p));
    spawned := Some(p);
  }

  // ---------------------------------------------------------------------
  // POST /api/run/perf

  /** The JSON body: a url and `desktop`, off by default. */
  datatype PerfRequest = PerfRequest(url: string, desktop: Value)

  function PerfArgv(root: string, req: PerfRequest): seq<string>
  {
    CliPrefix(root, "perf", req.url) + Opt(Flag(req.desktop, false), "--desktop")
  }

  /** The perf command line asks for the desktop preset exactly when the body does. */
  lemma {:induction false} PerfArgvRead(root: string, req: PerfRequest)
    ensures PerfArgv(root, req)[..5] == CliPrefix(root, "perf", req.url)
    ensures |PerfArgv(root, req)| == 5 || |PerfArgv(root, req)| == 6
    ensures |PerfArgv(root, req)| == 6 <==> Flag(req.desktop, false)
    ensures |PerfArgv(root, req)| == 6 ==> PerfArgv(root, req)[5] == "--desktop"
  {
    assert (CliPrefix(root, "perf", req.url) + Opt(Flag(req.desktop, false), "--desktop"))[..5] == CliPrefix(root, "perf", req.url);
  }

  method PostPerf(root: string, req: PerfRequest, run: Process -> ProcOutcome)
    returns (reply: ApiReply, spawned: Option<Process>)
    ensures req.url == "" ==> reply == BadRequest(MissingUrl) && spawned.None?
    ensures req.url != "" ==> spawned == Some(Process("node", PerfArgv(root, req)[1..], root))
    ensures req.url != "" ==> reply == Answer(run(spawned.value))
  {
    if req.url == "" {
      return BadRequest(MissingUrl), None;
    }
    var args := CliPrefix(root, "perf", req.url);
    if Flag(req.desktop, false) {
      args := args + ["--desktop"];
    }
    assert args == PerfArgv(root, req);
    var p := Process(args[0], args[1..], root);
    reply := Answer(run(p));
    spawned := Some(p);
  }

  // ---------------------------------------------------------------------
  // POST /api/run/quick

  /** The quick run passes nothing but the url: its process arguments are the entry point, `quick`, `--url` and the url. */
  method PostQuick(root: string, url: string, run: Process -> ProcOutcome)
    returns (reply: ApiReply, spawned: Option<Process>)
    ensures url == "" ==> reply == BadRequest(MissingUrl) && spawned.None?
    ensures url != "" ==> spawned == Some(Process("node", [EntryPoint(root), "quick", "--url", url], root))
    ensures url != "" ==> reply == Answer(run(spawned.value))
  {
    if url == "" {
      return BadRequest(MissingUrl), None;
    }
    var args := CliPrefix(root, "quick", url);
    assert args[1..] == [EntryPoint(root), "quick", "--url", url];
    var p := Process(args[0], args[1..], root);
    reply := Answer(run(p));
    spawned := Some(p);
  }

  // ---------------------------------------------------------------------
  // POST /api/run/security

  /** The JSON body, destructured with `zap` off and `tls`, `headers`, `har` on by default. */
  datatype SecurityRequest = SecurityRequest(url: string, zap: Value, tls: Value, headers: Value, har: Value)

  const SecuritySwitchNames: seq<string> := ["--no-tls", "--no-headers", "--no-har", "--zap"]

  function SecuritySwitchesOn(req: SecurityRequest): seq<bool>
  {
    [!Flag(req.tls, true), !Flag(req.headers, true), !Flag(req.har, true), Flag(req.zap, false)]
  }

  function SecuritySwitches(req: SecurityRequest): seq<string>
  {
    Switched(SecuritySwitchNames, SecuritySwitchesOn(req))
  }

  function SecurityArgv(root: string, req: SecurityRequest): seq<string>
  {
    CliPrefix(root, "security", req.url) + SecuritySwitches(req)
  }

  /** Four names: one conditional push each, in order. */
  lemma SwitchedFour(names: seq<string>, a: bool, b: bool, c: bool, d: bool)
    requires |names| == 4
    ensures Switched(names, [a, b, c, d]) == Opt(a, names[0]) + Opt(b, names[1]) + Opt(c, names[2]) + Opt(d, names[3])
  {
    assert [a, b, c, d][1..] == [b, c, d];
    SwitchedThree(names[1..], b, c, d);
  }

  /** The security switches are the four pushes, in order. */
  lemma SecuritySwitchesPushed(on: seq<bool>)
    requires |on| == 4
    ensures Switched(SecuritySwitchNames, on)
            == Opt(on[0], "--no-tls") + Opt(on[1], "--no-headers") + Opt(on[2], "--no-har") + Opt(on[3], "--zap")
  {
    SwitchedFour(SecuritySwitchNames, on[0], on[1], on[2], on[3]);
    assert on == [on[0], on[1], on[2], on[3]];
    assert SecuritySwitchNames[0] == "--no-tls" && SecuritySwitchNames[1] == "--no-headers";
    assert SecuritySwitchNames[2] == "--no-har" && SecuritySwitchNames[3] == "--zap";
  }

  /** Pushing four groups one after another appends them as one block. */
  lemma Regroup(p: seq<string>, a: seq<string>, b: seq<string>, c: seq<string>, d: seq<string>)
    ensures p + a + b + c + d == p + (a + b + c + d)
  {
    assert p + a + b + c + d == p + (a + b) + c + d;
    assert p + (a + b) + c + d == p + (a + b + c) + d;
  }

  /** Each security switch is on the command line exactly when the body turns its check away from the default. */
  lemma {:induction false} SecuritySwitchesRead(req: SecurityRequest)
    ensures "--no-tls" in SecuritySwitches(req) <==> !Flag(req.tls, true)
    ensures "--no-headers" in SecuritySwitches(req) <==> !Flag(req.headers, true)
    ensures "--no-har" in SecuritySwitches(req) <==> !Flag(req.har, true)
    ensures "--zap" in SecuritySwitches(req) <==> Flag(req.zap, false)
  {
    var names := SecuritySwitchNames;
    assert names[0][5] == 't' && names[1][5] == 'h' && names[2][5] == 'h' && names[3][2] == 'z';
    assert names[1][6] == 'e' && names[2][6] == 'a' && names[0][2] == 'n' && names[1][2] == 'n' && names[2][2] == 'n';
    SwitchedDistinct(names, SecuritySwitchesOn(req));
    assert names[0] == "--no-tls" && names[1] == "--no-headers" && names[2] == "--no-har" && names[3] == "--zap";
  }

  /** A body with only a url gets no switch: the CLI's own defaults apply. */
  lemma {:induction false} SecurityDefaults(root: string, url: string)
    ensures SecurityArgv(root, SecurityRequest(url, Undefined, Undefined, Undefined, Undefined)) == CliPrefix(root, "security", url)
  {
    var req := SecurityRequest(url, Undefined, Undefined, Undefined, Undefined);
    SwitchedFour(SecuritySwitchNames, false, false, false, false);
    assert SecuritySwitchesOn(req) == [false, false, false, false];
  }

  /**
   * How the security command reads its switches back (src/index.js): a
   * `--no-` switch that is absent leaves its check on, `--zap` is `true`
   * when present and absent otherwise.
   */
  function CliSecurityOptions(url: string, switches: seq<string>): SecuritySuite.SecurityOptions
  {
    SecuritySuite.SecurityOptions(url, Bool(!("--no-tls" in switches)), Bool(!("--no-headers" in switches)),
                                  if "--zap" in switches then Bool(true) else Undefined, Bool(!("--no-har" in switches)))
  }

  /** Through the command line the suite runs the very checks the body asked for, in the same order. */
  lemma {:induction false} SecurityPlanSurvivesCli(req: SecurityRequest)
    ensures SecuritySuite.Planned(CliSecurityOptions(req.url, SecuritySwitches(req))) ==
            SecuritySuite.Planned(SecuritySuite.SecurityOptions(req.url, req.tls, req.headers, req.zap, req.har))
  {
    SecuritySwitchesRead(req);
    assert SecuritySuite.SwitchesOf(CliSecurityOptions(req.url, SecuritySwitches(req))) ==
           SecuritySuite.SwitchesOf(SecuritySuite.SecurityOptions(req.url, req.tls, req.headers, req.zap, req.har));
  }

  method PostSecurity(root: string, req: SecurityRequest, run: Process -> ProcOutcome)
    returns (reply: ApiReply, spawned: Option<Process>)
    ensures req.url == "" ==> reply == BadRequest(MissingUrl) && spawned.None?
    ensures req.url != "" ==> spawned == Some(Process("node", SecurityArgv(root, req)[1..], root))
    ensures req.url != "" ==> reply == Answer(run(spawned.value))
  {
    if req.url == "" {
      return BadRequest(MissingUrl), None;
    }
    var prefix := CliPrefix(root, "security", req.url);
    var on := SecuritySwitchesOn(req);
    var args := prefix;
    if on[0] {
      args := args + ["--no-tls"];
    }
    assert args == prefix + Opt(on[0], "--no-tls");
    if on[1] {
      args := args + ["--no-headers"];
    }
    assert args == prefix + Opt(on[0], "--no-tls") + Opt(on[1], "--no-headers");
    if on[2] {
      args := args + ["--no-har"];
    }
    assert args == prefix + Opt(on[0], "--no-tls") + Opt(on[1], "--no-headers") + Opt(on[2], "--no-har");
    if on[3] {
      args := args + ["--zap"];
    }
    ghost var o0, o1, o2, o3 := Opt(on[0], "--no-tls"), Opt(on[1], "--no-headers"), Opt(on[2], "--no-har"), Opt(on[3], "--zap");
    assert args == prefix + o0 + o1 + o2 + o3;
    Regroup(prefix, o0, o1, o2, o3);
    ghost var switches := o0 + o1 + o2 + o3;
    SecuritySwitchesPushed(on);
    assert switches == SecuritySwitches(req);
    var p := Process(args[0], args[1..], root);
    reply := Answer(run(p));
    spawned := Some(p);
  }
}
