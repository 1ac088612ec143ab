/**
 * The report proxy: a serverless handler that serves one stored report
 * artifact, named by the `path` query parameter, from the static storage
 * configured in the environment, passing its content type through or
 * guessing it from the file extension.
 */
module ReportProxy {
  import opened Js

  const JsonType := "application/json; charset=utf-8"
  const HtmlType := "text/html; charset=utf-8"
  const TextType := "text/plain; charset=utf-8"
  const SvgType := "image/svg+xml"
  const PngType := "image/png"
  const JpegType := "image/jpeg"
  const PdfType := "application/pdf"
  const OctetStream := "application/octet-stream"

  const DefaultCacheControl := "public, max-age=60"
  const MissingPath := "Missing path"
  const NotConfigured := "Server not configured. Missing STORAGE_BASE_URL env."

  /** The content type for a path, decided by its extension in any letter case. */
  function GuessContentType(p: string): (t: string)
    ensures t != ""
  {
    ByExtension(Lower(p))
  }

  /** The chain of extension tests, on the lower-cased name. */
  function ByExtension(lower: string): (t: string)
    ensures t != ""
  {
    if EndsWith(lower, ".json") then JsonType
    else if EndsWith(lower, ".html") || EndsWith(lower, ".htm") then HtmlType
    else if EndsWith(lower, ".har") then JsonType
    else if EndsWith(lower, ".txt") || EndsWith(lower, ".log") then TextType
    else if EndsWith(lower, ".svg") then SvgType
    else if EndsWith(lower, ".png") then PngType
    else if EndsWith(lower, ".jpg") || EndsWith(lower, ".jpeg") then JpegType
    else if EndsWith(lower, ".pdf") then PdfType
    else OctetStream
  }

  /** Every extension the guess knows, with the type it gives. */
  const KnownTypes: seq<(string, string)> := [
    (".json", JsonType), (".html", HtmlType), (".htm", HtmlType), (".har", JsonType),
    (".txt", TextType), (".log", TextType), (".svg", SvgType), (".png", PngType),
    (".jpg", JpegType), (".jpeg", JpegType), (".pdf", PdfType)
  ]

  /** No known extension ends another, as long or longer than it. */
  lemma {:induction false} ExtensionsUnrelated()
    ensures forall i, j ::
              (0 <= i < |KnownTypes| && 0 <= j < |KnownTypes| && i != j && |KnownTypes[i].0| <= |KnownTypes[j].0|)
              ==> !EndsWith(KnownTypes[j].0, KnownTypes[i].0)
  {
    forall i, j | 0 <= i < |KnownTypes| && 0 <= j < |KnownTypes| && i != j &&
                  |KnownTypes[i].0| <= |KnownTypes[j].0|
      ensures !EndsWith(KnownTypes[j].0, KnownTypes[i].0)
    {
      var t, u := KnownTypes[i].0, KnownTypes[j].0;
      if |t| == |u| {
        assert t != u;
      } else {
        assert u[|u| - |t|] != '.';
        assert t[0] == '.';
      }
    }
  }

  /** So a name ends in at most one known extension, and the order of the tests does not matter. */
  lemma {:induction false} AtMostOneExtension(s: string)
    ensures forall i, j :: 0 <= i < |KnownTypes| && 0 <= j < |KnownTypes| && i != j && EndsWith(s, KnownTypes[i].0) ==>
              !EndsWith(s, KnownTypes[j].0)
  {
    ExtensionsUnrelated();
    forall i, j | 0 <= i < |KnownTypes| && 0 <= j < |KnownTypes| && i != j && EndsWith(s, KnownTypes[i].0)
      ensures !EndsWith(s, KnownTypes[j].0)
    {
      var t, u := KnownTypes[i].0, KnownTypes[j].0;
      if EndsWith(s, u) {
        if |t| <= |u| {
          SuffixesNest(s, t, u);
        } else {
          SuffixesNest(s, u, t);
        }
        assert false;
      }
    }
  }

  /** The guess agrees with the table: the type of the one extension the name ends in, else a byte stream. */
  lemma {:induction false} GuessFollowsTable(p: string)
    ensures forall i :: 0 <= i < |KnownTypes| && EndsWith(Lower(p), KnownTypes[i].0) ==>
              GuessContentType(p) == KnownTypes[i].1
    ensures (forall i :: 0 <= i < |KnownTypes| ==> !EndsWith(Lower(p), KnownTypes[i].0)) ==>
              GuessContentType(p) == OctetStream
  {
    var lower := Lower(p);
    AtMostOneExtension(lower);
    assert KnownTypes[0] == (".json", JsonType) && KnownTypes[1] == (".html", HtmlType);
    assert KnownTypes[2] == (".htm", HtmlType) && KnownTypes[3] == (".har", JsonType);
    assert KnownTypes[4] == (".txt", TextType) && KnownTypes[5] == (".log", TextType);
    assert KnownTypes[6] == (".svg", SvgType) && KnownTypes[7] == (".png", PngType);
    assert KnownTypes[8] == (".jpg", JpegType) && KnownTypes[9] == (".jpeg", JpegType);
    assert KnownTypes[10] == (".pdf", PdfType);
    if forall i :: 0 <= i < |KnownTypes| ==> !EndsWith(lower, KnownTypes[i].0) {
      assert !EndsWith(lower, KnownTypes[0].0) && !EndsWith(lower, KnownTypes[1].0);
      assert !EndsWith(lower, KnownTypes[2].0) && !EndsWith(lower, KnownTypes[3].0);
      assert !EndsWith(lower, KnownTypes[4].0) && !EndsWith(lower, KnownTypes[5].0);
      assert !EndsWith(lower, KnownTypes[6].0) && !EndsWith(lower, KnownTypes[7].0);
      assert !EndsWith(lower, KnownTypes[8].0) && !EndsWith(lower, KnownTypes[9].0);
      assert !EndsWith(lower, KnownTypes[10].0);
    }
  }

  /** The guess ignores letter case: a name and its lower-case form get the same type. */
  lemma GuessIgnoresCase(p: string, q: string)
    requires Lower(p) == Lower(q)
    ensures GuessContentType(p) == GuessContentType(q)
    ensures GuessContentType(p) == GuessContentType(Lower(p))
  {
    LowerMakesLower(p);
  }

  /** The storage URL: base and prefix each lose one trailing slash, a non-empty prefix adds a segment. */
  function Target(base: string, prefix: string, path: string): (t: string)
    ensures EndsWith(t, "/" + path)
  {
    var dir := if prefix == "" then "" else StripTrailingSlash(prefix) + "/";
    var t := StripTrailingSlash(base) + "/" + dir + path;
    assert t == (StripTrailingSlash(base) + "/" + dir) + path;
    assert EndsWith(StripTrailingSlash(base) + "/" + dir, "/") by {
      if dir == "" {
        EndsWithAppend(StripTrailingSlash(base), "/");
      } else {
        EndsWithAppend(StripTrailingSlash(base) + "/" + StripTrailingSlash(prefix), "/");
        assert StripTrailingSlash(base) + "/" + dir == StripTrailingSlash(base) + "/" + StripTrailingSlash(prefix) + "/";
      }
    }
    EndsWithSlashThen(StripTrailingSlash(base) + "/" + dir, path);
    t
  }

  lemma EndsWithSlashThen(d: string, path: string)
    requires EndsWith(d, "/")
    ensures EndsWith(d + path, "/" + path)
  {
    var s := d + path;
    assert s[|s| - |"/" + path|..] == "/" + path by {
      assert s[|s| - |"/" + path|..] == d[|d| - 1..] + path;
    }
  }

  /** With no prefix, the target is the base, one slash, and the path. */
  lemma {:induction false} TargetWithoutPrefix(base: string, path: string)
    requires !EndsWith(base, "/")
    ensures Target(base, "", path) == base + "/" + path
    ensures Target(base + "/", "", path) == base + "/" + path
  {
    assert StripTrailingSlash(base + "/") + "/" == base + "/";
  }

  /** One trailing slash on the base or the prefix makes no difference. */
  lemma {:induction false} TrailingSlashIrrelevant(base: string, prefix: string, path: string)
    requires !EndsWith(base, "/") && !EndsWith(prefix, "/") && prefix != ""
    ensures Target(base + "/", prefix + "/", path) == Target(base, prefix, path)
    ensures Target(base, prefix, path) == base + "/" + prefix + "/" + path
  {
    assert StripTrailingSlash(base + "/") + "/" == base + "/";
    assert StripTrailingSlash(prefix + "/") + "/" == prefix + "/";
  }

  /** The deployment's settings; an unset variable is `""`. */
  datatype ProxyEnv = ProxyEnv(storageBase: string, storagePrefix: string, cacheControl: string)

  /**
   * What the storage answers for the target: nothing (the fetch throws), or
   * a status, its `content-type` header (`""` when absent), what `text()`
   * gives (`None` when it rejects) and what reading the bytes gives.
   */
  datatype Upstream =
    | Unreachable(error: Thrown)
    | Answered(status: nat, contentType: string, text: Option<string>, bytes: Result<seq<bv8>, Thrown>)

  predicate Ok(status: int)
  {
    200 <= status <= 299
  }

  datatype Reply =
    | JsonError(status: int, error: string)
    | Text(status: int, text: string)
    | Document(status: int, contentType: string, cacheControl: string, content: seq<bv8>)

  /** The reply, and the storage URL that was fetched, if any. */
  datatype Exchange = Exchange(reply: Reply, fetched: Option<string>)

  /** The handler, for a `path` query parameter (`""` when missing or empty). */
  function Handle(path: string, env: ProxyEnv, upstream: Upstream): (x: Exchange)
    ensures path == "" ==> x == Exchange(JsonError(400, MissingPath), None)
    ensures path != "" && env.storageBase == "" ==> x == Exchange(JsonError(500, NotConfigured), None)
    ensures x.fetched.Some? <==> path != "" && env.storageBase != ""
    ensures x.fetched.Some? ==> x.fetched.value == Target(env.storageBase, env.storagePrefix, path)
    ensures x.fetched.Some? && upstream.Unreachable? ==> x.reply == JsonError(500, Describe(upstream.error))
    ensures x.fetched.Some? && upstream.Answered? && Ok(upstream.status) && upstream.bytes.Failure? ==>
              x.reply == JsonError(500, Describe(upstream.bytes.error))
    ensures x.reply.Document? <==> x.fetched.Some? && upstream.Answered? && Ok(upstream.status) && upstream.bytes.Success?
  {
    if path == "" then Exchange(JsonError(400, MissingPath), None)
    else if env.storageBase == "" then Exchange(JsonError(500, NotConfigured), None)
    else
      var target := Target(env.storageBase, env.storagePrefix, path);
      Exchange(Respond(path, env, upstream), Some(target))
  }

  /** Everything after the fetch, including the `catch` that turns a throw into a 500. */
  function Respond(path: string, env: ProxyEnv, upstream: Upstream): Reply
  {
    match upstream
    case Unreachable(e) => JsonError(500, Describe(e))
    case Answered(status, contentType, text, bytes) =>
      if !Ok(status) then
        var t := if text.Some? then text.value else "";
        Text(status, if t != "" then t else "Upstream fetch failed: " + Decimal(status))
      else if bytes.Failure? then JsonError(500, Describe(bytes.error))
      else
        Document(200, if contentType != "" then contentType else GuessContentType(path),
                 if env.cacheControl != "" then env.cacheControl else DefaultCacheControl, bytes.value)
  }

  /** The missing-path answer comes first: it does not depend on the configuration or the storage. */
  lemma MissingPathFirst(env1: ProxyEnv, env2: ProxyEnv, up1: Upstream, up2: Upstream)
    ensures Handle("", env1, up1) == Handle("", env2, up2)
    ensures Handle("", env1, up1).reply.status == 400
  {
  }

  /** A non-ok answer keeps its status, and the reply text is never empty. */
  lemma {:induction false} UpstreamFailurePassesThrough(path: string, env: ProxyEnv, upstream: Upstream)
    requires path != "" && env.storageBase != "" && upstream.Answered? && !Ok(upstream.status)
    ensures Handle(path, env, upstream).reply.Text?
    ensures Handle(path, env, upstream).reply.status == upstream.status
    ensures Handle(path, env, upstream).reply.text != ""
    ensures upstream.text.Some? && upstream.text.value != "" ==> Handle(path, env, upstream).reply.text == upstream.text.value
    ensures (upstream.text.None? || upstream.text.value == "") ==>
              Handle(path, env, upstream).reply.text == "Upstream fetch failed: " + Decimal(upstream.status)
  {
  }

  /**
   * A served document carries a content type and a cache policy: the
   * storage's content type wins over the guess, the configured cache policy
   * over the default, and the bytes are the storage's.
   */
  lemma {:induction false} DocumentHeaders(path: string, env: ProxyEnv, upstream: Upstream)
    requires Handle(path, env, upstream).reply.Document?
    ensures Handle(path, env, upstream).reply.status == 200
    ensures Handle(path, env, upstream).reply.contentType != ""
    ensures Handle(path, env, upstream).reply.cacheControl != ""
    ensures upstream.contentType != "" ==> Handle(path, env, upstream).reply.contentType == upstream.contentType
    ensures upstream.contentType == "" ==> Handle(path, env, upstream).reply.contentType == GuessContentType(path)
    ensures env.cacheControl == "" ==> Handle(path, env, upstream).reply.cacheControl == DefaultCacheControl
    ensures env.cacheControl != "" ==> Handle(path, env, upstream).reply.cacheControl == env.cacheControl
    ensures Handle(path, env, upstream).reply.content == upstream.bytes.value
  {
  }
}
