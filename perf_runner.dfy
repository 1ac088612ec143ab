/**
 * `runPerf`: a Lighthouse audit of one url, written as an HTML report into
 * the reports directory, in the mobile preset unless desktop is asked for.
 */
module PerfRunner {
  import opened Js

  /** The options object; `desktop` defaults to off. */
  datatype PerfOptions = PerfOptions(url: string, desktop: Value)

  /** A process started with `execa(file, args)`. */
  datatype Launch = Launch(file: string, args: seq<string>)

  function Mode(desktop: bool): string
  {
    if desktop then "desktop" else "mobile"
  }

  /** `lighthouse-<mode>.html` */
  function ReportName(desktop: bool): string
  {
    "lighthouse-" + Mode(desktop) + ".html"
  }

  /** `path.join(outDir, ReportName(desktop))` with `outDir` the reports directory under `cwd`. */
  function OutPath(cwd: string, desktop: bool): string
  {
    PathJoin(ReportsDir(cwd), ReportName(desktop))
  }

  /** The report lies directly in the reports directory, and the two presets never share a file. */
  lemma {:induction false} OutPathInReports(cwd: string, desktop: bool)
    ensures OutPath(cwd, desktop) == ReportsDir(cwd) + "/" + ReportName(desktop)
    ensures EndsWith(OutPath(cwd, desktop), ".html")
    ensures OutPath(cwd, true) != OutPath(cwd, false)
  {
    InReportsDir(cwd, ReportName(desktop));
    InReportsDir(cwd, ReportName(true));
    InReportsDir(cwd, ReportName(false));
    var dir := ReportsDir(cwd) + "/";
    assert OutPath(cwd, desktop) == (dir + "lighthouse-" + Mode(desktop)) + ".html";
    EndsWithAppend(dir + "lighthouse-" + Mode(desktop), ".html");
    assert |OutPath(cwd, true)| == |OutPath(cwd, false)| + 1;
  }

  /** `['--output=html', '--output-path=<outPath>', '--quiet']` */
  function Flags(outPath: string): seq<string>
  {
    ["--output=html", "--output-path=" + outPath, "--quiet"]
  }

  /** `runPerf`: `npx lighthouse <url>` with the HTML output flags, then `--preset=desktop` in desktop mode. */
  method RunPerf(cwd: string, o: PerfOptions) returns (l: Launch)
    ensures l.file == "npx"
    ensures l.args == ["lighthouse", o.url] + Flags(OutPath(cwd, Flag(o.desktop, false)))
                      + (if Flag(o.desktop, false) then ["--preset=desktop"] else [])
    ensures |l.args| == 5 || |l.args| == 6
    ensures |l.args| == 6 <==> Flag(o.desktop, false)
  {
    var desktop := Flag(o.desktop, false);
    var outPath := OutPath(cwd, desktop);
    var flags := Flags(outPath);
    if desktop {
      flags := flags + ["--preset=desktop"];
    }
    var args := ["lighthouse", o.url] + flags;
    assert args[..5] == ["lighthouse", o.url] + Flags(outPath);
    l := Launch("npx", args);
  }

  /** The Lighthouse command line names exactly the report file the runner announces. */
  lemma {:induction false} ReportFlagNamesOutPath(cwd: string, desktop: bool)
    ensures "--output-path=" + OutPath(cwd, desktop) in Flags(OutPath(cwd, desktop))
    ensures forall f :: f in Flags(OutPath(cwd, desktop)) && StartsWith(f, "--output-path=") ==>
              f == "--output-path=" + OutPath(cwd, desktop)
  {
    var p := "--output-path=";
    var fs := Flags(OutPath(cwd, desktop));
    assert fs[1] == p + OutPath(cwd, desktop);
    assert !StartsWith(fs[0], p) by {
      assert fs[0][9] != p[9];
    }
    assert !StartsWith(fs[2], p) by {
      assert |fs[2]| < |p|;
    }
  }
}
