/**
 * The serving backends of `private_media/servers.py`. A server is a value: its
 * variant and the three class attributes the library lets subclasses override.
 * Responses are Django objects whose headers the servers assign in place; each
 * method doing so is proved against a function that says what the response is
 * afterwards, and the properties of the backends are stated on those functions.
 */
module Servers {
  import opened Wrappers
  import opened Paths
  import opened Http

  /** The library's server classes. */
  datatype Kind =
    | Base                  // BasePrivateMediaServer
    | LocalDevelopment      // LocalDevelopmentServer
    | ApacheXSendfile       // ApacheXSendfileServer
    | NginxXAccelRedirect   // NginxXAccelRedirectServer

  /** A server class with its attributes INTERNAL_URL, ROOT and FORCE_DOWNLOAD. */
  datatype Server = Server(kind: Kind, internalUrl: Option<string>, root: Option<string>, forceDownload: bool)

  /** The classes as shipped: INTERNAL_URL and ROOT are None, FORCE_DOWNLOAD is True. */
  function Stock(kind: Kind): Server {
    Server(kind, None, None, true)
  }

  /**
   * The Django settings read here: PRIVATE_MEDIA_ROOT, PRIVATE_MEDIA_INTERNAL_URL,
   * PRIVATE_MEDIA_FORCE_DOWNLOAD (None when the setting is absent) and DEBUG.
   */
  datatype Settings = Settings(root: string, internalUrl: string, forceDownload: Option<bool>, debug: bool)

  /** What `os.stat` and reading the file give: modification time, size, bytes. */
  datatype FileStat = FileStat(mtime: int, size: nat, content: seq<byte>)

  /**
   * The world outside the library: the filesystem as a map from path to file,
   * `mimetypes.guess_type(path)[0]`, `django.views.static.was_modified_since`
   * and `django.utils.http.http_date`.
   */
  datatype Env = Env(
    files: map<string, FileStat>,
    guessType: string -> Option<string>,
    wasModifiedSince: (Option<string>, int, nat) -> bool,
    httpDate: int -> string)

  const OctetStream := "application/octet-stream"

  /**
   * The TypeError raised by calling `get_full_path` with one argument too
   * many; Python's exact wording varies between versions.
   */
  const GetFullPathArity := "get_full_path() called with one positional argument too many"

  /** Python truthiness of an optional string: neither None nor empty. */
  predicate Truthy(attr: Option<string>) {
    attr.Some? && attr.value != ""
  }

  /** `attr or setting` */
  function Prefer(attr: Option<string>, setting: string): string {
    if Truthy(attr) then attr.value else setting
  }

  /** The value of the Content-Disposition header for a file name. */
  function Attachment(filename: string): string {
    "attachment; filename=" + filename
  }

  /**
   * `get_url`: the relative path joined onto INTERNAL_URL when that is truthy,
   * onto the PRIVATE_MEDIA_INTERNAL_URL setting otherwise.
   */
  function GetUrl(srv: Server, cfg: Settings, rel: string): (r: string)
    ensures Truthy(srv.internalUrl) ==> r == Join(srv.internalUrl.value, rel)
    ensures !Truthy(srv.internalUrl) ==> r == Join(cfg.internalUrl, rel)
    ensures |rel| <= |r| && r[|r| - |rel|..] == rel
    ensures IsAbsolute(rel) ==> r == rel
  {
    Join(Prefer(srv.internalUrl, cfg.internalUrl), rel)
  }

  /**
   * `get_full_path`: the relative path joined onto ROOT when that is truthy,
   * onto the PRIVATE_MEDIA_ROOT setting otherwise. Nothing keeps the result
   * under the root: an absolute relative path replaces it.
   */
  function GetFullPath(srv: Server, cfg: Settings, rel: string): (r: string)
    ensures Truthy(srv.root) ==> r == Join(srv.root.value, rel)
    ensures !Truthy(srv.root) ==> r == Join(cfg.root, rel)
    ensures |rel| <= |r| && r[|r| - |rel|..] == rel
    ensures IsAbsolute(rel) ==> r == rel
  {
    Join(Prefer(srv.root, cfg.root), rel)
  }

  /** `get_mimetype`: the guessed type of the full path, else application/octet-stream. */
  function GetMimetype(srv: Server, cfg: Settings, env: Env, rel: string): (r: string)
    ensures r != ""
    ensures var guess := env.guessType(GetFullPath(srv, cfg, rel));
      if Truthy(guess) then r == guess.value else r == OctetStream
  {
    var guess := env.guessType(GetFullPath(srv, cfg, rel));
    if Truthy(guess) then guess.value else OctetStream
  }

  /**
   * `get_force_download(overwrite)`: an explicit argument wins, then the
   * PRIVATE_MEDIA_FORCE_DOWNLOAD setting, then the class's FORCE_DOWNLOAD.
   */
  function GetForceDownload(srv: Server, cfg: Settings, overwrite: Option<bool>): (r: bool)
    ensures overwrite.Some? ==> r == overwrite.value
    ensures overwrite.None? && cfg.forceDownload.Some? ==> r == cfg.forceDownload.value
    ensures overwrite.None? && cfg.forceDownload.None? ==> r == srv.forceDownload
  {
    match overwrite
    case Some(choice) => choice
    case None => if cfg.forceDownload.Some? then cfg.forceDownload.value else srv.forceDownload
  }

  /** The shipped classes force downloads unless the setting or the caller says otherwise. */
  lemma StockForcesDownload(kind: Kind, cfg: Settings)
    requires cfg.forceDownload.None?
    ensures GetForceDownload(Stock(kind), cfg, None)
  {
  }

  /**
   * `get_filename`: the basename of the full path, which is always the last
   * segment of the relative path whatever the root is. It is not sanitised.
   */
  function GetFilename(srv: Server, cfg: Settings, rel: string): (r: string)
    ensures r == Basename(rel)
    ensures '/' !in r
  {
    BasenameOfJoin(Prefer(srv.root, cfg.root), rel);
    Basename(GetFullPath(srv, cfg, rel))
  }

  /** The library does not sanitise the file name: a line break in the path survives. */
  lemma AttachmentKeepsLineBreaks(srv: Server, cfg: Settings)
    ensures GetFilename(srv, cfg, "d/a\r\nb") == "a\r\nb"
  {
    var dir, name := "d/", "a\r\nb";
    assert dir + name == "d/a\r\nb";
    assert Basename(dir) == [];
    assert name[0] != '/' && name[1] != '/' && name[2] != '/' && name[3] != '/';
    assert '/' !in name;
    Paths.BasenameAppend(dir, name);
    assert Basename(dir + name) == [] + name;
  }

  /** A line break in the name makes the whole attachment value unsafe. */
  lemma AttachmentUnsafe(filename: string)
    requires !HeaderSafe(filename)
    ensures !HeaderSafe(Attachment(filename))
  {
    var prefix := "attachment; filename=";
    var v := Attachment(filename);
    var i :| 0 <= i < |filename| && (filename[i] == '\r' || filename[i] == '\n');
    assert v[|prefix| + i] == filename[i];
  }

  /**
   * `add_attachment_header`: sets Content-Disposition to an attachment named
   * after the last segment of the relative path, or raises BadHeaderError when
   * that name holds a line break; nothing else changes.
   */
  method AddAttachmentHeader(srv: Server, cfg: Settings, response: HttpResponse, rel: string)
    returns (raised: Option<Exception>)
    modifies response
    ensures match WithHeader(old(response.Value()), ContentDisposition, Attachment(Basename(rel)))
      case Ok(v) => raised.None? && response.Value() == v
      case Err(e) => raised == Some(e) && response.Value() == old(response.Value())
  {
    var filename := GetFilename(srv, cfg, rel);
    raised := response.SetHeader(ContentDisposition, Attachment(filename));
  }

  /**
   * What `prepare_response` does to a response of each variant: the base
   * version (inherited by the local server) adds the attachment header when
   * force-download is on; the Nginx version sets X-Accel-Redirect and
   * Content-Type and never adds a disposition; the Apache version passes
   * `get_full_path` one argument too many and always raises TypeError. A
   * header value with a line break raises BadHeaderError.
   */
  function PrepareResult(srv: Server, cfg: Settings, env: Env, resp: Response, rel: string): (r: Result<Response, Exception>)
    ensures (r.Err? && r.error.TypeError?) <==> srv.kind.ApacheXSendfile?
    ensures srv.kind.ApacheXSendfile? ==> r == Err(TypeError(GetFullPathArity))
    ensures r.Ok? ==> r.value.status == resp.status && r.value.body == resp.body
    ensures r.Ok? && Clean(resp) ==> Clean(r.value)
    ensures (srv.kind.Base? || srv.kind.LocalDevelopment?) && GetForceDownload(srv, cfg, None) ==>
      r == WithHeader(resp, ContentDisposition, Attachment(Basename(rel)))
    ensures (srv.kind.Base? || srv.kind.LocalDevelopment?) && !GetForceDownload(srv, cfg, None) ==>
      r == Ok(resp)
    ensures srv.kind.NginxXAccelRedirect? ==>
      var url, mime := GetUrl(srv, cfg, rel), GetMimetype(srv, cfg, env, rel);
      r == if !HeaderSafe(url) then Err(BadHeaderError(url))
           else if !HeaderSafe(mime) then Err(BadHeaderError(mime))
           else Ok(resp.(headers := resp.headers[XAccelRedirect := url][ContentType := mime]))
    ensures r.Ok? && !srv.kind.Base? && !srv.kind.LocalDevelopment? ==>
      (ContentDisposition in r.value.headers <==> ContentDisposition in resp.headers)
  {
    match srv.kind
    case Base | LocalDevelopment =>
      if GetForceDownload(srv, cfg, None) then
        WithHeader(resp, ContentDisposition, Attachment(GetFilename(srv, cfg, rel)))
      else
        Ok(resp)
    case ApacheXSendfile =>
      Err(TypeError(GetFullPathArity))
    case NginxXAccelRedirect =>
      AndHeader(WithHeader(resp, XAccelRedirect, GetUrl(srv, cfg, rel)), ContentType, GetMimetype(srv, cfg, env, rel))
  }

  /** With force-download on, a line break in the file name makes the base `prepare_response` raise. */
  lemma LineBreakInNameRaises(srv: Server, cfg: Settings, env: Env, resp: Response, rel: string)
    requires srv.kind.Base? || srv.kind.LocalDevelopment?
    requires GetForceDownload(srv, cfg, None) && !HeaderSafe(Basename(rel))
    ensures PrepareResult(srv, cfg, env, resp, rel) == Err(BadHeaderError(Attachment(Basename(rel))))
  {
    AttachmentUnsafe(Basename(rel));
  }

  /** `BasePrivateMediaServer.prepare_response`, also the local server's: the attachment header when forced. */
  method BasePrepareResponse(srv: Server, cfg: Settings, env: Env, response: HttpResponse, rel: string)
    returns (raised: Option<Exception>)
    requires srv.kind.Base? || srv.kind.LocalDevelopment?
    modifies response
    ensures match PrepareResult(srv, cfg, env, old(response.Value()), rel)
      case Ok(v) => raised.None? && response.Value() == v
      case Err(e) => raised == Some(e) && response.Value() == old(response.Value())
  {
    raised := None;
    if GetForceDownload(srv, cfg, None) {
      raised := AddAttachmentHeader(srv, cfg, response, rel);
    }
  }

  /** `NginxXAccelRedirectServer.prepare_response`: X-Accel-Redirect, then Content-Type. */
  method NginxPrepareResponse(srv: Server, cfg: Settings, env: Env, response: HttpResponse, rel: string)
    returns (raised: Option<Exception>)
    requires srv.kind.NginxXAccelRedirect?
    modifies response
    ensures match PrepareResult(srv, cfg, env, old(response.Value()), rel)
      case Ok(v) => raised.None? && response.Value() == v
      case Err(e) => raised == Some(e) && response.status == old(response.status) && response.body == old(response.body)
  {
    var url, mime := GetUrl(srv, cfg, rel), GetMimetype(srv, cfg, env, rel);
    ghost var before := response.Value();
    ghost var first := WithHeader(before, XAccelRedirect, url);
    assert PrepareResult(srv, cfg, env, before, rel) == AndHeader(first, ContentType, mime);
    raised := response.SetHeader(XAccelRedirect, url);
    if raised.None? {
      assert first == Ok(response.Value());
      raised := response.SetHeader(ContentType, mime);
    }
  }

  /**
   * `prepare_response` of the server's class, assigning headers in place;
   * returns the exception it raises, if any. Apache's raises before touching
   * the response.
   */
  method PrepareResponse(srv: Server, cfg: Settings, env: Env, response: HttpResponse, rel: string)
    returns (raised: Option<Exception>)
    modifies response
    ensures match PrepareResult(srv, cfg, env, old(response.Value()), rel)
      case Ok(v) => raised.None? && response.Value() == v
      case Err(e) => raised == Some(e) && response.status == old(response.status) && response.body == old(response.body)
    ensures srv.kind.ApacheXSendfile? ==> response.Value() == old(response.Value())
  {
    match srv.kind
    case Base | LocalDevelopment =>
      raised := BasePrepareResponse(srv, cfg, env, response, rel);
    case ApacheXSendfile =>
      raised := Some(TypeError(GetFullPathArity));
    case NginxXAccelRedirect =>
      raised := NginxPrepareResponse(srv, cfg, env, response, rel);
  }

  /**
   * What `serve` gives back. The local server answers 404 for a missing file,
   * 304 with no headers (Django's HttpResponseNotModified deletes the content
   * type it is given) when the file was not modified since the request's
   * If-Modified-Since, and otherwise 200 with the file's bytes, its content
   * type and Last-Modified, through the base `prepare_response`. The other
   * variants inherit the base `serve`: an empty 200 response with the default
   * content type, passed through their own `prepare_response`.
   */
  function ServeResult(srv: Server, cfg: Settings, env: Env, req: Request, rel: string): (r: Result<Response, Exception>)
    ensures r.Err? ==> r.error.Http404? || r.error.TypeError? || r.error.BadHeaderError?
    ensures r.Err? && r.error.Http404? ==> srv.kind.LocalDevelopment?
    ensures r.Err? && r.error.TypeError? ==> srv.kind.ApacheXSendfile?
    ensures r.Ok? && r.value.status != StatusNotModified ==> ContentType in r.value.headers
    ensures r.Ok? ==> Clean(r.value)
  {
    if srv.kind.LocalDevelopment? then
      var full := GetFullPath(srv, cfg, rel);
      if full !in env.files then
        Err(Http404("\"" + full + "\" does not exist"))
      else
        var contentType := GetMimetype(srv, cfg, env, rel);
        var stat := env.files[full];
        if !env.wasModifiedSince(req.IfModifiedSince(), stat.mtime, stat.size) then
          match WithHeader(Response(StatusNotModified, map[], []), ContentType, contentType)
          case Err(e) => Err(e)
          case Ok(resp) => Ok(resp.(headers := resp.headers - {ContentType}))
        else
          var built := AndHeader(WithHeader(Response(StatusOk, map[], stat.content), ContentType, contentType),
                                 LastModified, env.httpDate(stat.mtime));
          match built
          case Err(e) => Err(e)
          case Ok(resp) => PrepareResult(srv, cfg, env, resp, rel)
    else
      match WithHeader(Response(StatusOk, map[], []), ContentType, DefaultContentType)
      case Err(e) => Err(e)
      case Ok(resp) => PrepareResult(srv, cfg, env, resp, rel)
  }

  /** The local server raises Http404 naming the full path when no file is there. */
  lemma LocalServeMissing(srv: Server, cfg: Settings, env: Env, req: Request, rel: string)
    requires srv.kind.LocalDevelopment?
    requires GetFullPath(srv, cfg, rel) !in env.files
    ensures ServeResult(srv, cfg, env, req, rel) == Err(Http404("\"" + GetFullPath(srv, cfg, rel) + "\" does not exist"))
  {
  }

  /**
   * An unmodified file gives 304 with an empty body and no header at all: no
   * Content-Type, no Last-Modified, no Content-Disposition. A content type
   * with a line break still raises, when the constructor assigns it.
   */
  lemma LocalServeNotModified(srv: Server, cfg: Settings, env: Env, req: Request, rel: string)
    requires srv.kind.LocalDevelopment?
    requires var full := GetFullPath(srv, cfg, rel);
      full in env.files && !env.wasModifiedSince(req.IfModifiedSince(), env.files[full].mtime, env.files[full].size)
    ensures var mime := GetMimetype(srv, cfg, env, rel);
      ServeResult(srv, cfg, env, req, rel) ==
        if HeaderSafe(mime) then Ok(Response(StatusNotModified, map[], [])) else Err(BadHeaderError(mime))
  {
    var mime := GetMimetype(srv, cfg, env, rel);
    assert map[ContentType := mime] - {ContentType} == map[];
  }

  /**
   * A modified (or unconditionally requested) file gives 200 with its bytes,
   * exactly Content-Type and Last-Modified, plus the attachment header when
   * force-download is on; a header value with a line break raises instead.
   */
  lemma LocalServeModified(srv: Server, cfg: Settings, env: Env, req: Request, rel: string)
    requires srv.kind.LocalDevelopment?
    requires var full := GetFullPath(srv, cfg, rel);
      full in env.files && env.wasModifiedSince(req.IfModifiedSince(), env.files[full].mtime, env.files[full].size)
    ensures var file := env.files[GetFullPath(srv, cfg, rel)];
      var mime, date, name := GetMimetype(srv, cfg, env, rel), env.httpDate(file.mtime), Attachment(Basename(rel));
      var headers := map[ContentType := mime, LastModified := date];
      ServeResult(srv, cfg, env, req, rel) ==
        if !HeaderSafe(mime) then Err(BadHeaderError(mime))
        else if !HeaderSafe(date) then Err(BadHeaderError(date))
        else if !GetForceDownload(srv, cfg, None) then Ok(Response(StatusOk, headers, file.content))
        else if !HeaderSafe(name) then Err(BadHeaderError(name))
        else Ok(Response(StatusOk, headers[ContentDisposition := name], file.content))
  {
  }

  /**
   * The base server answers an empty 200 with the default content type and,
   * when forced, the attachment header (or raises for a name with a line break).
   */
  lemma BaseServe(srv: Server, cfg: Settings, env: Env, req: Request, rel: string)
    requires srv.kind.Base?
    ensures var name := Attachment(Basename(rel));
      var headers := map[ContentType := DefaultContentType];
      ServeResult(srv, cfg, env, req, rel) ==
        if !GetForceDownload(srv, cfg, None) then Ok(Response(StatusOk, headers, []))
        else if !HeaderSafe(name) then Err(BadHeaderError(name))
        else Ok(Response(StatusOk, headers[ContentDisposition := name], []))
  {
    DefaultContentTypeSafe();
  }

  /** Two distinct keys with their values make up the whole of a two-entry map. */
  lemma TwoEntries(m: map<string, string>, k1: string, v1: string, k2: string, v2: string)
    requires k1 != k2 && m.Keys == {k1, k2} && m[k1] == v1 && m[k2] == v2
    ensures m == map[k1 := v1, k2 := v2]
  {
  }

  /**
   * The Nginx server answers an empty 200 whose only headers are the internal
   * URL in X-Accel-Redirect and the guessed content type, or raises when one
   * of them holds a line break.
   */
  lemma NginxServe(srv: Server, cfg: Settings, env: Env, req: Request, rel: string)
    requires srv.kind.NginxXAccelRedirect?
    ensures var url, mime := GetUrl(srv, cfg, rel), GetMimetype(srv, cfg, env, rel);
      ServeResult(srv, cfg, env, req, rel) ==
        if !HeaderSafe(url) then Err(BadHeaderError(url))
        else if !HeaderSafe(mime) then Err(BadHeaderError(mime))
        else Ok(Response(StatusOk, map[XAccelRedirect := url, ContentType := mime], []))
  {
    var url, mime := GetUrl(srv, cfg, rel), GetMimetype(srv, cfg, env, rel);
    var start := Response(StatusOk, map[ContentType := DefaultContentType], []);
    var r := ServeResult(srv, cfg, env, req, rel);
    assert r == PrepareResult(srv, cfg, env, start, rel) by {
      DefaultContentTypeSafe();
      assert WithHeader(Response(StatusOk, map[], []), ContentType, DefaultContentType) == Ok(start);
    }
    if HeaderSafe(url) && HeaderSafe(mime) {
      NginxHeaders(url, mime);
      assert r == Ok(start.(headers := start.headers[XAccelRedirect := url][ContentType := mime]));
    }
  }

  /** Nginx's two assignments over the default content type leave exactly its two headers. */
  lemma NginxHeaders(url: string, mime: string)
    ensures map[ContentType := DefaultContentType][XAccelRedirect := url][ContentType := mime]
      == map[XAccelRedirect := url, ContentType := mime]
  {
    var headers := map[ContentType := DefaultContentType][XAccelRedirect := url][ContentType := mime];
    assert XAccelRedirect != ContentType by { assert |XAccelRedirect| != |ContentType|; }
    assert headers.Keys == {XAccelRedirect, ContentType};
    TwoEntries(headers, XAccelRedirect, url, ContentType, mime);
  }

  /** The Apache server, as written, raises TypeError on every request. */
  lemma ApacheServeRaises(srv: Server, cfg: Settings, env: Env, req: Request, rel: string)
    requires srv.kind.ApacheXSendfile?
    ensures ServeResult(srv, cfg, env, req, rel) == Err(TypeError(GetFullPathArity))
  {
    DefaultContentTypeSafe();
  }

  /** Neither proxy variant ever sends Content-Disposition, whatever force-download says. */
  lemma ProxyServeNeverAttaches(srv: Server, cfg: Settings, env: Env, req: Request, rel: string)
    requires srv.kind.NginxXAccelRedirect? || srv.kind.ApacheXSendfile?
    ensures var r := ServeResult(srv, cfg, env, req, rel);
      r.Ok? ==> ContentDisposition !in r.value.headers
  {
    if srv.kind.NginxXAccelRedirect? {
      NginxServe(srv, cfg, env, req, rel);
      NginxHeadersOmitDisposition(GetUrl(srv, cfg, rel), GetMimetype(srv, cfg, env, rel));
    } else {
      ApacheServeRaises(srv, cfg, env, req, rel);
    }
  }

  /** Content-Disposition is neither of the two headers Nginx's response carries. */
  lemma NginxHeadersOmitDisposition(url: string, mime: string)
    ensures ContentDisposition !in map[XAccelRedirect := url, ContentType := mime]
  {
    assert ContentDisposition != XAccelRedirect by { assert |ContentDisposition| != |XAccelRedirect|; }
    assert ContentDisposition != ContentType by { assert |ContentDisposition| != |ContentType|; }
  }

  /** `serve`: builds a fresh response object, or raises. */
  method Serve(srv: Server, cfg: Settings, env: Env, req: Request, rel: string) returns (out: Outcome)
    ensures out.Returned? ==> fresh(out.response)
    ensures Delivers(out, ServeResult(srv, cfg, env, req, rel))
  {
    var response: HttpResponse;
    var raised: Option<Exception>;
    if srv.kind.LocalDevelopment? {
      var full := GetFullPath(srv, cfg, rel);
      if full !in env.files {
        return Raised(Http404("\"" + full + "\" does not exist"));
      }
      var contentType := GetMimetype(srv, cfg, env, rel);
      var stat := env.files[full];
      if !env.wasModifiedSince(req.IfModifiedSince(), stat.mtime, stat.size) {
        response := new HttpResponse(StatusNotModified, []);
        raised := response.SetHeader(ContentType, contentType);
        if raised.Some? {
          return Raised(raised.value);
        }
        response.DeleteHeader(ContentType);
        return Returned(response);
      }
      response := new HttpResponse(StatusOk, stat.content);
      raised := response.SetHeader(ContentType, contentType);
      if raised.Some? {
        return Raised(raised.value);
      }
      raised := response.SetHeader(LastModified, env.httpDate(stat.mtime));
      if raised.Some? {
        return Raised(raised.value);
      }
    } else {
      response := new HttpResponse(StatusOk, []);
      raised := response.SetHeader(ContentType, DefaultContentType);
      if raised.Some? {
        return Raised(raised.value);
      }
    }
    raised := PrepareResponse(srv, cfg, env, response, rel);
    out := if raised.Some? then Raised(raised.value) else Returned(response);
  }
}
