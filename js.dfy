/**
 * JavaScript notions shared by the runners, the UI server and the report
 * proxy: the values that arrive in request bodies and option objects, their
 * truthiness, destructuring defaults, thrown errors, the few string
 * operations the code uses (`toLowerCase`, `startsWith`, `endsWith`, a
 * trailing-slash strip) and `path.join` for the report artifacts.
 */
module Js {

  datatype Option<+T> = None | Some(value: T)

  datatype Result<+T, +E> = Success(value: T) | Failure(error: E)

  /** A value read from a JSON request body or an options object. */
  datatype Value = Undefined | Null | Bool(b: bool) | Num(n: int) | Str(s: string)

  /** JavaScript truthiness (NaN and fractional numbers are not modelled). */
  predicate Truthy(v: Value)
  {
    match v
    case Undefined => false
    case Null => false
    case Bool(b) => b
    case Num(n) => n != 0
    case Str(s) => s != ""
  }

  /**
   * A destructured option `{ name = d }` tested with `if (name)`: the default
   * replaces only `undefined`, so an explicit `null` stays falsy.
   */
  predicate Flag(v: Value, d: bool)
  {
    if v.Undefined? then d else Truthy(v)
  }

  lemma FlagDefaultOnlyForUndefined(v: Value, d: bool)
    ensures Flag(v, d) != Flag(v, !d) <==> v.Undefined?
  {
  }

  /** A thrown error: its `message` and what `String(err)` gives. */
  datatype Thrown = Thrown(message: string, shown: string)

  /** `err?.message || String(err)` */
  function Describe(e: Thrown): (d: string)
    ensures e.message != "" ==> d == e.message
    ensures e.message == "" ==> d == e.shown
  {
    if e.message != "" then e.message else e.shown
  }

  // ---------------------------------------------------------------------
  // Strings

  function LowerChar(c: char): char
  {
    if 'A' <= c <= 'Z' then (c as int + 32) as char else c
  }

  /** `toLowerCase` restricted to the ASCII letters. */
  function Lower(s: string): (r: string)
    ensures |r| == |s|
    ensures forall i :: 0 <= i < |s| ==> r[i] == LowerChar(s[i])
  {
    seq(|s|, i requires 0 <= i < |s| => LowerChar(s[i]))
  }

  predicate IsLower(s: string)
  {
    forall i :: 0 <= i < |s| ==> !('A' <= s[i] <= 'Z')
  }

  lemma LowerMakesLower(s: string)
    ensures IsLower(Lower(s))
    ensures Lower(Lower(s)) == Lower(s)
    ensures IsLower(s) ==> Lower(s) == s
  {
  }

  /** Two names that differ only in the case of their letters lower to the same string. */
  lemma LowerIgnoresCase(a: string, b: string)
    requires |a| == |b|
    requires forall i :: 0 <= i < |a| ==> LowerChar(a[i]) == LowerChar(b[i])
    ensures Lower(a) == Lower(b)
  {
  }

  predicate StartsWith(s: string, p: string)
  {
    |p| <= |s| && s[..|p|] == p
  }

  predicate EndsWith(s: string, t: string)
  {
    |t| <= |s| && s[|s| - |t|..] == t
  }

  /** Two suffixes of one string: the shorter is a suffix of the longer. */
  lemma SuffixesNest(s: string, t: string, u: string)
    requires EndsWith(s, t) && EndsWith(s, u) && |t| <= |u|
    ensures EndsWith(u, t)
  {
    forall i | 0 <= i < |t|
      ensures u[|u| - |t| + i] == t[i]
    {
      assert u[|u| - |t| + i] == s[|s| - |u| + (|u| - |t| + i)];
      assert t[i] == s[|s| - |t| + i];
    }
    assert u[|u| - |t|..] == t;
  }

  lemma EndsWithAppend(s: string, t: string)
    ensures EndsWith(s + t, t)
  {
    assert (s + t)[|s + t| - |t|..] == t;
  }

  /** `s.replace(/\/$/, '')`: at most one trailing slash is removed. */
  function StripTrailingSlash(s: string): (r: string)
    ensures EndsWith(s, "/") ==> r + "/" == s
    ensures !EndsWith(s, "/") ==> r == s
  {
    if EndsWith(s, "/") then s[..|s| - 1] else s
  }

  /** `path.join(dir, name)` for a normalised directory and a plain file name. */
  function PathJoin(dir: string, name: string): string
  {
    if dir == "" then name
    else if EndsWith(dir, "/") then dir + name
    else dir + "/" + name
  }

  /** `path.resolve(cwd, 'reports')` for a normalised absolute working directory. */
  function ReportsDir(cwd: string): string
  {
    PathJoin(cwd, "reports")
  }

  /** The reports directory never ends in a slash, so joining a name adds exactly one. */
  lemma InReportsDir(cwd: string, name: string)
    ensures PathJoin(ReportsDir(cwd), name) == ReportsDir(cwd) + "/" + name
    ensures EndsWith(ReportsDir(cwd), "reports")
  {
    var dir := ReportsDir(cwd);
    if cwd == "" {
      assert dir == "reports";
    } else if EndsWith(cwd, "/") {
      EndsWithAppend(cwd, "reports");
    } else {
      EndsWithAppend(cwd + "/", "reports");
      assert dir == (cwd + "/") + "reports";
    }
    assert dir[|dir| - 1] == 's';
    assert !EndsWith(dir, "/");
  }

  /** Decimal digits of a natural number, as template literals print it. */
  function Decimal(n: nat): (r: string)
    ensures |r| >= 1
    ensures forall i :: 0 <= i < |r| ==> '0' <= r[i] <= '9'
  {
    var digit := ['0' + (n % 10) as char];
    if n < 10 then digit else Decimal(n / 10) + digit
  }

  /** The number a string of decimal digits denotes, most significant digit first. */
  function DigitsValue(s: string): nat
  {
    if s == [] then 0
    else
      var d := s[|s| - 1] as int - '0' as int;
      DigitsValue(s[..|s| - 1]) * 10 + (if 0 <= d <= 9 then d else 0)
  }

  /** `Decimal` writes `n` itself, with no leading zero. */
  lemma {:induction false} DecimalDenotes(n: nat)
    ensures DigitsValue(Decimal(n)) == n
    ensures n > 0 ==> Decimal(n)[0] != '0'
    ensures n == 0 ==> Decimal(n) == "0"
  {
    var digit := ['0' + (n % 10) as char];
    assert digit[0] as int - '0' as int == n % 10;
    if n < 10 {
      assert digit[..0] == [];
    } else {
      DecimalDenotes(n / 10);
      var init := Decimal(n / 10);
      var s := init + digit;
      assert Decimal(n) == s;
      assert s[..|s| - 1] == init && s[|s| - 1] == digit[0];
      assert DigitsValue(s) == DigitsValue(init) * 10 + n % 10;
      assert s[0] == init[0];
    }
  }
}
