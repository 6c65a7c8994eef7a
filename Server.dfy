/** The request handler of the site's HTTP server: which URL paths are served
    as static files, which are rendered as pages, and which get the 404 page.
    File reads, `path.join`, `path.extname` and URL parsing are abstract
    inputs (a `Disk` oracle and a `pathname` function that fails where
    `new URL` throws). */
module Server {
  import opened Js

  // Status codes of RFC 9110, section 15.3.1 (200 OK) and section 15.5.5 (404 Not Found).
  const StatusOk: nat := 200
  const StatusNotFound: nat := 404

  const HtmlType := "text/html"
  const DefaultType := "application/octet-stream"

  /** The extension-to-MIME table of the server. */
  const MimeTypes: map<string, string> := map[
    ".html" := "text/html",
    ".js" := "application/javascript",
    ".css" := "text/css",
    ".json" := "application/json",
    ".png" := "image/png",
    ".jpg" := "image/jpeg",
    ".gif" := "image/gif",
    ".svg" := "image/svg+xml",
    ".ico" := "image/x-icon"
  ]

  /** `mimeTypes[ext] || 'application/octet-stream'` (no table entry is the
      empty string, so `||` falls back exactly on a missing key). */
  function ContentType(ext: string): (r: string)
    ensures r == DefaultType || r in MimeTypes.Values
    ensures ext in MimeTypes ==> r == MimeTypes[ext]
  {
    if ext in MimeTypes && MimeTypes[ext] != "" then MimeTypes[ext] else DefaultType
  }

  /** Each of the nine listed extensions maps to its table entry. */
  lemma ContentTypeListed()
    ensures ContentType(".html") == "text/html"
    ensures ContentType(".js") == "application/javascript"
    ensures ContentType(".css") == "text/css"
    ensures ContentType(".json") == "application/json"
    ensures ContentType(".png") == "image/png"
    ensures ContentType(".jpg") == "image/jpeg"
    ensures ContentType(".gif") == "image/gif"
    ensures ContentType(".svg") == "image/svg+xml"
    ensures ContentType(".ico") == "image/x-icon"
  {
  }

  /** The default is returned exactly for the extensions outside the table,
      the empty extension among them. */
  lemma ContentTypeDefault(ext: string)
    ensures ContentType(ext) == DefaultType <==>
      ext !in {".html", ".js", ".css", ".json", ".png", ".jpg", ".gif", ".svg", ".ico"}
    ensures ContentType("") == DefaultType
  {
  }

  /** `url.replace(/^\/+/, '')`: drops the whole leading run of `/`. */
  function TrimLeadingSlashes(s: string): (r: string)
    ensures !StartsWith(r, "/")
    ensures |r| <= |s|
  {
    if s != [] && s[0] == '/' then TrimLeadingSlashes(s[1..]) else s
  }

  /** The result is a suffix of the input, and everything trimming removes
      in front of it is `/`. */
  lemma {:induction false} TrimRemovesOnlySlashes(s: string)
    ensures var r := TrimLeadingSlashes(s);
      r == s[|s| - |r|..] && forall i :: 0 <= i < |s| - |r| ==> s[i] == '/'
  {
    if s != [] && s[0] == '/' {
      TrimRemovesOnlySlashes(s[1..]);
      assert s[1..][|s| - 1 - |TrimLeadingSlashes(s)|..] == s[|s| - |TrimLeadingSlashes(s)|..];
    }
  }

  /** Trimming is idempotent. */
  lemma TrimIdempotent(s: string)
    ensures TrimLeadingSlashes(TrimLeadingSlashes(s)) == TrimLeadingSlashes(s)
  {
    var t := TrimLeadingSlashes(s);
    if t != [] {
      assert t[..1] == [t[0]];
    }
  }

  /** Any run of slashes in front of a string not starting with `/` is
      exactly what trimming removes. */
  lemma {:induction false} TrimSlashesPrefix(k: nat, t: string)
    requires !StartsWith(t, "/")
    ensures TrimLeadingSlashes(seq(k, _ => '/') + t) == t
  {
    if k > 0 {
      assert (seq(k, _ => '/') + t)[1..] == seq(k - 1, _ => '/') + t;
      TrimSlashesPrefix(k - 1, t);
    }
  }

  /** `path.replace(/^\/public\//, '')`: only a leading `/public/` goes. */
  function StripPublicPrefix(path: string): (r: string)
    ensures StartsWith(path, "/public/") ==> path == "/public/" + r
    ensures !StartsWith(path, "/public/") ==> r == path
  {
    if StartsWith(path, "/public/") then path[8..] else path
  }

  /** What the server can find out about the files under its working
      directory: the files whose read succeeds, keyed by base directory and
      path below it, each with what `extname` gives for it. */
  datatype Disk = Disk(files: map<(string, string), string>) {
    predicate Readable(dir: string, rel: string)
    {
      (dir, rel) in files
    }

    function Extname(dir: string, rel: string): string
      requires Readable(dir, rel)
    {
      files[(dir, rel)]
    }
  }

  datatype ServedFile = ServedFile(dir: string, relPath: string, contentType: string)

  /** `serveFile(baseDir, url)`: the file under `baseDir` at `url` without
      its leading slashes, or `None` (the source's `null`) when it cannot be read. */
  function ServeFile(baseDir: string, url: string, disk: Disk): (r: Option<ServedFile>)
    ensures r.Some? <==> disk.Readable(baseDir, TrimLeadingSlashes(url))
    ensures r.Some? ==> r.value.dir == baseDir && r.value.relPath == TrimLeadingSlashes(url)
    ensures r.Some? ==> r.value.contentType == ContentType(disk.Extname(baseDir, r.value.relPath))
  {
    var trimmed := TrimLeadingSlashes(url);
    if disk.Readable(baseDir, trimmed) then
      Some(ServedFile(baseDir, trimmed, ContentType(disk.Extname(baseDir, trimmed))))
    else
      None
  }

  /** The three paths that render a page. */
  const AllowedPaths: set<string> := {"/", "/docs", "/examples"}

  predicate IsStaticPrefixed(path: string)
  {
    StartsWith(path, "/public/") || StartsWith(path, "/dist/") || StartsWith(path, "/client/")
  }

  datatype Outcome =
    | StaticFile(dir: string, relPath: string, contentType: string)
    | Page(path: string)
    | NotFound

  function Served(f: ServedFile): Outcome
  {
    StaticFile(f.dir, f.relPath, f.contentType)
  }

  /** The branch chain of `requestHandler` on a parsed pathname. A static
      branch whose file cannot be read falls through to the next test. */
  function Dispatch(path: string, disk: Disk): (o: Outcome)
    ensures o.Page? ==> o.path == path && path in AllowedPaths
    ensures o.StaticFile? ==> IsStaticPrefixed(path) && !StartsWith(o.relPath, "/")
  {
    if StartsWith(path, "/public/") && ServeFile("public", StripPublicPrefix(path), disk).Some? then
      Served(ServeFile("public", StripPublicPrefix(path), disk).value)
    else if StartsWith(path, "/dist/") && ServeFile(".", path, disk).Some? then
      Served(ServeFile(".", path, disk).value)
    else if StartsWith(path, "/client/") && ServeFile("public", path, disk).Some? then
      Served(ServeFile("public", path, disk).value)
    else if path in AllowedPaths then
      Page(path)
    else
      NotFound
  }

  /** No path carries two of the static prefixes. */
  lemma PrefixesExclusive(path: string)
    ensures !(StartsWith(path, "/public/") && StartsWith(path, "/dist/"))
    ensures !(StartsWith(path, "/public/") && StartsWith(path, "/client/"))
    ensures !(StartsWith(path, "/dist/") && StartsWith(path, "/client/"))
  {
    if StartsWith(path, "/public/") || StartsWith(path, "/dist/") || StartsWith(path, "/client/") {
      assert path[1] == path[..6][1];
    }
  }

  /** No page path starts with a static prefix. */
  lemma AllowedPathsNotPrefixed(path: string)
    ensures IsStaticPrefixed(path) ==> path !in AllowedPaths
  {
    if path == "/examples" {
      assert !StartsWith(path, "/public/") by { assert path[..8][1] == 'e'; }
      assert !StartsWith(path, "/dist/") by { assert path[..6][1] == 'e'; }
      assert !StartsWith(path, "/client/") by { assert path[..8][1] == 'e'; }
    }
  }

  /** `/public/x` is looked up under `public` at `x` with its leading
      slashes trimmed; a missing file ends in 404. */
  lemma DispatchPublic(path: string, disk: Disk)
    requires StartsWith(path, "/public/")
    ensures var rel := TrimLeadingSlashes(path[8..]);
      Dispatch(path, disk) ==
        if disk.Readable("public", rel) then StaticFile("public", rel, ContentType(disk.Extname("public", rel)))
        else NotFound
  {
    PrefixesExclusive(path);
    AllowedPathsNotPrefixed(path);
    var f := ServeFile("public", StripPublicPrefix(path), disk);
    assert path !in AllowedPaths;
  }

  /** `/dist/x` is looked up under `.` at the whole path, slashes trimmed. */
  lemma DispatchDist(path: string, disk: Disk)
    requires StartsWith(path, "/dist/")
    ensures var rel := TrimLeadingSlashes(path);
      Dispatch(path, disk) ==
        if disk.Readable(".", rel) then StaticFile(".", rel, ContentType(disk.Extname(".", rel)))
        else NotFound
  {
    PrefixesExclusive(path);
    AllowedPathsNotPrefixed(path);
    var f := ServeFile(".", path, disk);
    assert path !in AllowedPaths;
  }

  /** `/client/x` is looked up under `public` at the whole path, slashes trimmed. */
  lemma DispatchClient(path: string, disk: Disk)
    requires StartsWith(path, "/client/")
    ensures var rel := TrimLeadingSlashes(path);
      Dispatch(path, disk) ==
        if disk.Readable("public", rel) then StaticFile("public", rel, ContentType(disk.Extname("public", rel)))
        else NotFound
  {
    PrefixesExclusive(path);
    AllowedPathsNotPrefixed(path);
    var f := ServeFile("public", path, disk);
    assert path !in AllowedPaths;
  }

  /** A page is rendered exactly for the three allowed paths, whatever is
      on disk, and it is the page of the requested path. */
  lemma DispatchPage(path: string, disk: Disk)
    ensures Dispatch(path, disk).Page? <==> path in AllowedPaths
    ensures Dispatch(path, disk).Page? ==> Dispatch(path, disk).path == path
  {
    AllowedPathsNotPrefixed(path);
  }

  /** 404 exactly when the path is neither a readable static file nor an
      allowed page. */
  lemma DispatchNotFound(path: string, disk: Disk)
    ensures Dispatch(path, disk) == NotFound <==>
      path !in AllowedPaths &&
      !(StartsWith(path, "/public/") && disk.Readable("public", TrimLeadingSlashes(path[8..]))) &&
      !(StartsWith(path, "/dist/") && disk.Readable(".", TrimLeadingSlashes(path))) &&
      !(StartsWith(path, "/client/") && disk.Readable("public", TrimLeadingSlashes(path)))
  {
    PrefixesExclusive(path);
    AllowedPathsNotPrefixed(path);
    if StartsWith(path, "/public/") {
      DispatchPublic(path, disk);
      assert !StartsWith(path, "/dist/") && !StartsWith(path, "/client/") && path !in AllowedPaths;
    } else if StartsWith(path, "/dist/") {
      DispatchDist(path, disk);
      assert !StartsWith(path, "/client/") && path !in AllowedPaths;
    } else if StartsWith(path, "/client/") {
      DispatchClient(path, disk);
      assert path !in AllowedPaths;
    } else {
      assert Dispatch(path, disk) == if path in AllowedPaths then Page(path) else NotFound;
    }
  }

  datatype Body = FileContent(dir: string, relPath: string) | RenderedDocument(path: string) | NotFoundPage

  datatype Response = Response(status: nat, contentType: string, body: Body)

  /** The status, `Content-Type` header and body written for an outcome. */
  function Respond(o: Outcome): (r: Response)
    ensures r.status == StatusOk <==> !o.NotFound?
    ensures r.status == StatusNotFound <==> o.NotFound?
    ensures !o.StaticFile? ==> r.contentType == HtmlType
    ensures o.StaticFile? ==> r.contentType == o.contentType && r.body == FileContent(o.dir, o.relPath)
  {
    match o
    case StaticFile(dir, rel, ct) => Response(StatusOk, ct, FileContent(dir, rel))
    case Page(path) => Response(StatusOk, HtmlType, RenderedDocument(path))
    case NotFound => Response(StatusNotFound, HtmlType, NotFoundPage)
  }

  /** Status 200 with `text/html` and a rendered document exactly for the
      allowed paths; every other path that is not a readable static file
      gets 404 with `text/html` and the fixed 404 page. */
  lemma ResponseStatus(path: string, disk: Disk)
    ensures var r := Respond(Dispatch(path, disk));
      (r.status == StatusOk || r.status == StatusNotFound) &&
      (r.body.RenderedDocument? <==> path in AllowedPaths) &&
      (r.body.RenderedDocument? ==> r == Response(StatusOk, HtmlType, RenderedDocument(path))) &&
      (r.status == StatusNotFound <==> Dispatch(path, disk) == NotFound) &&
      (r.status == StatusNotFound ==> r.contentType == HtmlType && r.body == NotFoundPage)
  {
    DispatchPage(path, disk);
  }

  /** A readable file under a static prefix is sent with status 200, the
      `Content-Type` its extension looks up, and its own contents; the
      lookup is under `public` at the trimmed rest of a `/public/` path,
      under `.` at the trimmed `/dist/` path and under `public` at the
      trimmed `/client/` path. */
  lemma FileResponse(path: string, disk: Disk)
    ensures StartsWith(path, "/public/") ==> var rel := TrimLeadingSlashes(path[8..]);
      disk.Readable("public", rel) ==>
        Respond(Dispatch(path, disk)) == Response(StatusOk, ContentType(disk.Extname("public", rel)), FileContent("public", rel))
    ensures var rel := TrimLeadingSlashes(path);
      StartsWith(path, "/dist/") && disk.Readable(".", rel) ==>
        Respond(Dispatch(path, disk)) == Response(StatusOk, ContentType(disk.Extname(".", rel)), FileContent(".", rel))
    ensures var rel := TrimLeadingSlashes(path);
      StartsWith(path, "/client/") && disk.Readable("public", rel) ==>
        Respond(Dispatch(path, disk)) == Response(StatusOk, ContentType(disk.Extname("public", rel)), FileContent("public", rel))
  {
    if StartsWith(path, "/public/") {
      DispatchPublic(path, disk);
    } else if StartsWith(path, "/dist/") {
      DispatchDist(path, disk);
    } else if StartsWith(path, "/client/") {
      DispatchClient(path, disk);
    }
  }

  /** `req.url || '/'`: an absent or empty URL stands for `/`. */
  function RequestUrl(url: Option<string>): (u: string)
    ensures url.None? || url.value == "" ==> u == "/"
    ensures url.Some? && url.value != "" ==> u == url.value
  {
    if url.None? || url.value == "" then "/" else url.value
  }

  /** A request without a URL renders the home page, given that URL
      parsing yields pathname `/` for `/`. */
  lemma MissingUrlRendersHome(pathname: string -> Option<string>, disk: Disk)
    requires pathname("/") == Some("/")
    ensures Respond(Dispatch(pathname(RequestUrl(None)).value, disk)) == Response(StatusOk, HtmlType, RenderedDocument("/"))
    ensures Respond(Dispatch(pathname(RequestUrl(Some(""))).value, disk)) == Response(StatusOk, HtmlType, RenderedDocument("/"))
  {
    AllowedPathsNotPrefixed("/");
    assert !IsStaticPrefixed("/");
  }

  datatype NavLink = HomeLink | DocsLink | ExamplesLink | GitHubLink

  /** `isActive` of `createWorld`. */
  function IsActive(currentPath: string, path: string): bool
  {
    currentPath == path
  }

  /** The `class` attribute of a nav link on the page for `currentPath`:
      only the Home link consults `isActive`. */
  function NavClass(currentPath: string, link: NavLink): (c: Option<string>)
    ensures c.Some? ==> link == HomeLink && c.value == "active"
  {
    match link
    case HomeLink => if IsActive(currentPath, "/") then Some("active") else None
    case _ => None
  }

  /** A link is marked `active` exactly when it is Home on the page `/`,
      and `active` is the only class a nav link ever gets. */
  lemma NavActiveOnlyHome(currentPath: string, link: NavLink)
    ensures NavClass(currentPath, link) == Some("active") <==> link == HomeLink && currentPath == "/"
    ensures NavClass(currentPath, link).Some? ==> NavClass(currentPath, link).value == "active"
  {
  }

  /** The page `createWorld` builds for a dispatched request marks Home
      active exactly on the home page, and no other link ever. */
  lemma PageNavActive(path: string, disk: Disk, link: NavLink)
    requires Dispatch(path, disk).Page?
    ensures var p := Dispatch(path, disk).path;
      p == path && p in AllowedPaths &&
      (NavClass(p, link) == Some("active") <==> link == HomeLink && path == "/") &&
      (NavClass(p, link).Some? ==> link == HomeLink)
  {
    NavActiveOnlyHome(path, link);
  }

  datatype Event = WriteHead(status: nat, contentType: string) | End(body: Body)

  /** The part of Node's `ServerResponse` the handler uses: the calls made
      on it, in order. The model allows one `writeHead`, before `end`, and
      one `end`; `end` sends the headers when `writeHead` did not. */
  class ServerResponse {
    var headersSent: bool
    var finished: bool
    var events: seq<Event>

    constructor()
      ensures !headersSent && !finished && events == []
    {
      headersSent, finished, events := false, false, [];
    }

    method WriteHeadCall(status: nat, contentType: string)
      requires !headersSent && !finished
      modifies this
      ensures headersSent && finished == old(finished)
      ensures events == old(events) + [WriteHead(status, contentType)]
    {
      headersSent := true;
      events := events + [WriteHead(status, contentType)];
    }

    method EndCall(body: Body)
      requires !finished
      modifies this
      ensures finished && headersSent
      ensures events == old(events) + [End(body)]
    {
      finished, headersSent := true, true;
      events := events + [End(body)];
    }
  }

  function Emitted(r: Response): seq<Event>
  {
    [WriteHead(r.status, r.contentType), End(r.body)]
  }

  /** `requestHandler`. When `new URL` throws, the handler's promise
      rejects before anything is written (`rejected`); otherwise exactly one
      `writeHead` followed by exactly one `end`, carrying the response that
      `Dispatch` chooses for the parsed path. */
  method HandleRequest(url: Option<string>, pathname: string -> Option<string>, disk: Disk, res: ServerResponse)
    returns (rejected: bool)
    requires !res.headersSent && !res.finished
    modifies res
    ensures rejected <==> pathname(RequestUrl(url)).None?
    ensures rejected ==> !res.headersSent && !res.finished && res.events == old(res.events)
    ensures !rejected ==> res.headersSent && res.finished
    ensures !rejected ==>
      res.events == old(res.events) + Emitted(Respond(Dispatch(pathname(RequestUrl(url)).value, disk)))
  {
    var parsed := pathname(RequestUrl(url));
    if parsed.None? {
      return true;
    }
    rejected := false;
    var path := parsed.value;

    if StartsWith(path, "/public/") {
      var staticFile := ServeFile("public", StripPublicPrefix(path), disk);
      if staticFile.Some? {
        res.WriteHeadCall(StatusOk, staticFile.value.contentType);
        res.EndCall(FileContent(staticFile.value.dir, staticFile.value.relPath));
        assert Dispatch(path, disk) == Served(staticFile.value) by { DispatchPublic(path, disk); }
        return;
      }
    }

    if StartsWith(path, "/dist/") {
      var staticFile := ServeFile(".", path, disk);
      if staticFile.Some? {
        res.WriteHeadCall(StatusOk, staticFile.value.contentType);
        res.EndCall(FileContent(staticFile.value.dir, staticFile.value.relPath));
        assert Dispatch(path, disk) == Served(staticFile.value) by { DispatchDist(path, disk); }
        return;
      }
    }

    if StartsWith(path, "/client/") {
      var staticFile := ServeFile("public", path, disk);
      if staticFile.Some? {
        res.WriteHeadCall(StatusOk, staticFile.value.contentType);
        res.EndCall(FileContent(staticFile.value.dir, staticFile.value.relPath));
        assert Dispatch(path, disk) == Served(staticFile.value) by { DispatchClient(path, disk); }
        return;
      }
    }

    assert Dispatch(path, disk) == if path in AllowedPaths then Page(path) else NotFound by {
      DispatchNotFound(path, disk);
      DispatchPage(path, disk);
    }
    if path !in AllowedPaths {
      res.WriteHeadCall(StatusNotFound, HtmlType);
      res.EndCall(NotFoundPage);
      return;
    }

    res.WriteHeadCall(StatusOk, HtmlType);
    res.EndCall(RenderedDocument(path));
  }
}
