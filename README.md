# django-private-media, modelled in Dafny

`django-private-media` serves files that live outside a Django site's public
media root, and only to callers with read permission. A view checks permission
and hands the request to a configurable *server* class. That class either reads
the file itself (`LocalDevelopmentServer`) or answers with an empty response
carrying a header that tells a front-end proxy to deliver the file
(`NginxXAccelRedirectServer` with `X-Accel-Redirect`, `ApacheXSendfileServer`
with `X-Sendfile`). Force-download adds a `Content-Disposition: attachment`
header.

This project models `private_media/servers.py` and `private_media/views.py`:

- `paths.dfy` (module `Paths`) holds the POSIX `os.path.join` and
  `os.path.basename` the servers use.
- `http.dfy` (module `Http`) holds the parts of Django's HTTP layer used here.
  A response is a value (`Response`: status, header map, body). Django's
  response object is the class `HttpResponse`, whose headers are assigned in
  place. It also holds the exceptions and the request's META dictionary.
- `servers.dfy` (module `Servers`) holds the server classes. A closed datatype
  `Kind` names the four classes (`Base`, `LocalDevelopment`, `ApacheXSendfile`,
  `NginxXAccelRedirect`). A server carries the class attributes `ROOT`,
  `INTERNAL_URL` and `FORCE_DOWNLOAD`. The filesystem is a map from path to
  (mtime, size, bytes). `mimetypes.guess_type`, `was_modified_since` and
  `http_date` are function-valued parameters (`Env`). `add_attachment_header`,
  `prepare_response` and `serve` are methods that mutate or build
  `HttpResponse` objects. Each is proved against a function (`PrepareResult`,
  `ServeResult`) that says what the response is afterwards or what is raised,
  and the per-variant properties are lemmas about those functions.
- `views.dfy` (module `Views`) holds `get_class`, the loading of the
  permissions class, and `serve_private_file`. Imports are a partial map from
  module path to the module's attributes. The server and the permissions
  object, built once at import time, are an immutable `App` value.
  `has_read_permission` is an opaque boolean oracle.

The code does not do several things one might expect, and the model follows
the code:

- Nothing confines a file path to the root. `os.path.join` lets an absolute
  relative path replace the root and keeps `..` (`Paths.JoinEscapesBase`).
- The file name in `Content-Disposition` is not sanitised. A CR/LF in the
  path reaches the header assignment unchanged
  (`Servers.AttachmentKeepsLineBreaks`). Django then refuses the value and
  raises `BadHeaderError` (`Servers.LineBreakInNameRaises`). The model treats
  every header assignment this way, so no returned response carries a line
  break in a header value.
- The proxy variants never add `Content-Disposition`, even with force-download
  on, because they override `prepare_response` without calling the base
  version.
- `ApacheXSendfileServer.prepare_response` calls `get_full_path` with one
  argument too many (`servers.py:90`). As written, every request it serves
  raises `TypeError` before any header is set. The model keeps this behaviour.
- `get_class` turns only four failures into `ImproperlyConfigured`. An empty
  module path (`".Foo"`) or a relative one (`"..x.Foo"`) makes
  `import_module` raise `ValueError` or `TypeError`, which escape it
  (`Views.EmptyModuleEscapes`).
- A 304 answer carries no headers at all: Django's `HttpResponseNotModified`
  removes the content type it was given.
- Exceptions (`Http404`, `PermissionDenied`, `TypeError`, `BadHeaderError`)
  propagate to the caller. They are not turned into response values.

## Model

| member | source | states |
|---|---|---|
| `Paths.Join` | private_media/servers.py:20-21 | `os.path.join`: an absolute second argument replaces the first. Otherwise the second is appended to the first, with a `/` between them exactly when the first is non-empty and does not end in `/`. The result always ends with the second argument |
| `Paths.Basename` | private_media/servers.py:32-33 | `os.path.basename`: a `/`-free suffix of the path, preceded by `/` whenever it is shorter than the path |
| `Paths.BasenameAppend` | private_media/servers.py:32-33 | the basename of `x + y` is `basename(y)` when `y` contains `/`, and `basename(x) + y` otherwise |
| `Paths.BasenameOfJoin` | private_media/servers.py:32-33 | joining onto any root never changes the last segment: `basename(join(a, b)) == basename(b)` |
| `Paths.JoinEscapesBase` | private_media/servers.py:20-21 | no confinement: an absolute path replaces the root, and `..` is kept |
| `Http.Request.IfModifiedSince` | private_media/servers.py:75 | `request.META.get('HTTP_IF_MODIFIED_SINCE')`: present exactly when the key is, with its value |
| `Http.WithHeader` | private_media/servers.py:40 | `response[name] = value` on a value: raises `BadHeaderError` exactly when the value holds CR or LF. Otherwise it sets that one header to that value and keeps status, body and every other header. A response without line breaks in its headers keeps that property |
| `Http.HttpResponse.constructor` | private_media/servers.py:49 | a new response object has the given status and body and no headers yet; the constructor's content type is a separate assignment |
| `Http.HttpResponse.SetHeader` | private_media/servers.py:81 | `response[name] = value` in place: the object ends in the state `WithHeader` gives, or raises that exception and is left unchanged |
| `Http.HttpResponse.DeleteHeader` | private_media/servers.py:78 | removes one header, as `HttpResponseNotModified` does with the content type; status, body and the other headers are unchanged |
| `Servers.GetUrl` | private_media/servers.py:17-18 | exactly `os.path.join` of `INTERNAL_URL` (when truthy, else the `PRIVATE_MEDIA_INTERNAL_URL` setting) and the relative path. So it ends with the relative path, and an absolute relative path is returned as is |
| `Servers.GetFullPath` | private_media/servers.py:20-21 | exactly `os.path.join` of `ROOT` (when truthy, else `PRIVATE_MEDIA_ROOT`) and the relative path. So it ends with the relative path, and an absolute relative path is returned as is |
| `Servers.GetMimetype` | private_media/servers.py:23-24 | the guessed type of the full path when it is truthy, else exactly `application/octet-stream`; never empty |
| `Servers.GetForceDownload` | private_media/servers.py:26-30 | precedence: an explicit argument, then the `PRIVATE_MEDIA_FORCE_DOWNLOAD` setting, then the class's `FORCE_DOWNLOAD` |
| `Servers.StockForcesDownload` | private_media/servers.py:13-15 | with the class attributes as shipped and no setting, every server forces download (`FORCE_DOWNLOAD = True`) |
| `Servers.GetFilename` | private_media/servers.py:32-33 | the file name is the last segment of the relative path, whatever the root, and contains no `/` |
| `Servers.AttachmentKeepsLineBreaks` | private_media/servers.py:39-40 | a CR/LF in the path survives into the file name used for the header |
| `Servers.AttachmentUnsafe` | private_media/servers.py:40 | a file name with a line break makes the `attachment; filename=` value one Django refuses |
| `Servers.AddAttachmentHeader` | private_media/servers.py:35-41 | assigns `Content-Disposition` = `attachment; filename=` + the basename of the relative path: the object ends as `WithHeader` gives, or raises `BadHeaderError` and is unchanged |
| `Servers.PrepareResult` | private_media/servers.py:43-46 | base and local: exactly the attachment assignment when force-download (no override) is on, else the response unchanged. Nginx: `X-Accel-Redirect` = URL and then `Content-Type` = mimetype, raising on the first value with a line break; `Content-Disposition` untouched. Apache: always `TypeError`, and it is the only variant that raises one. Status and body are never changed, and no line break is introduced |
| `Servers.LineBreakInNameRaises` | private_media/servers.py:43-46 | with force-download on, a relative path whose last segment holds CR/LF makes the base `prepare_response` raise `BadHeaderError` |
| `Servers.BasePrepareResponse` | private_media/servers.py:43-46 | the base `prepare_response` leaves the object in the state `PrepareResult` gives, or returns the exception with the object unchanged |
| `Servers.NginxPrepareResponse` | private_media/servers.py:101-106 | the Nginx `prepare_response` leaves the object in the state `PrepareResult` gives, or returns the exception with status and body unchanged |
| `Servers.PrepareResponse` | private_media/servers.py:87-106 | each variant's `prepare_response` leaves the object in the state `PrepareResult` describes and returns the exception raised, if any. Apache's raises before touching the object |
| `Servers.ServeResult` | private_media/servers.py:48-84 | only the local server raises `Http404`, only Apache raises `TypeError`, and the only other exception is `BadHeaderError`. Every returned response other than a 304 has a `Content-Type`, and no header value holds a line break |
| `Servers.LocalServeMissing` | private_media/servers.py:66-69 | a missing full path raises `Http404` naming it, before any stat or read |
| `Servers.LocalServeNotModified` | private_media/servers.py:71-78 | when `was_modified_since` is false: a 304 with an empty body and no headers at all, or `BadHeaderError` when the mimetype holds a line break |
| `Servers.LocalServeModified` | private_media/servers.py:79-82 | otherwise: 200 with the file's bytes and exactly `Content-Type` (mimetype) and `Last-Modified` (`http_date(mtime)`), plus the attachment header iff force-download is on; `BadHeaderError` for the first of those values that holds a line break |
| `Servers.BaseServe` | private_media/servers.py:48-51 | the base server answers an empty 200 with the default content type, plus the attachment header iff force-download is on, or raises `BadHeaderError` for a file name with a line break |
| `Servers.NginxServe` | private_media/servers.py:100-106 | Nginx answers an empty 200 whose only headers are `X-Accel-Redirect` = `get_url(path)` and `Content-Type` = mimetype, or raises `BadHeaderError` for the first of them that holds a line break |
| `Servers.ApacheServeRaises` | private_media/servers.py:87-90 | Apache, as written, raises `TypeError` on every request |
| `Servers.ProxyServeNeverAttaches` | private_media/servers.py:87-106 | neither proxy variant ever returns `Content-Disposition`, whatever force-download says |
| `Servers.Serve` | private_media/servers.py:48-84 | `serve` returns a fresh response object in exactly the state `ServeResult` describes, or raises the exception it names |
| `Views.LastIndexOf` | private_media/views.py:23-25 | `rindex`: the index of the last occurrence, or none exactly when the character is absent |
| `Views.SplitClassPath` | private_media/views.py:22-26 | no split exactly when the path has no dot. Otherwise `module + "." + classname == path`, and the class name has no dot |
| `Views.SplitAtLastDot` | private_media/views.py:26 | the split is at the last dot: joining a module and a dot-free name, then splitting, gives both back |
| `Views.GetClass` | private_media/views.py:15-34 | six distinct failures: no path, no dot, an empty module path, a relative module path, module not importable, attribute missing. Otherwise the module's attribute |
| `Views.GetClassByName` | private_media/views.py:26-34 | `module.name` with a dot-free name loads iff the module path is non-empty and not relative and the module and the attribute exist, and then yields that attribute. A failure is `ImproperlyConfigured` exactly when the module path is non-empty and not relative |
| `Views.EmptyModuleEscapes` | private_media/views.py:26-30 | `".Foo"` fails with the empty-module error, which `get_class` does not turn into `ImproperlyConfigured` |
| `Views.LoadPermissions` | private_media/views.py:38-42 | without `PRIVATE_MEDIA_PERMISSIONS`, `DefaultPrivatePermissions`. With it, exactly what `get_class` gives for the setting's value; a None value fails as "no class path" |
| `Views.ConfiguredPermissions` | private_media/views.py:38-39 | a setting naming an existing class in a non-empty, non-relative module loads exactly that class |
| `Views.ServePrivateFileResult` | private_media/views.py:45-54 | denied: `PermissionDenied` iff DEBUG, else `Http404('Protected file not found')`. Granted: exactly the server's answer for the unchanged path |
| `Views.DeniedIgnoresServer` | private_media/views.py:49-53 | a denied request's answer does not depend on the server, its settings or the files: the server is not consulted |
| `Views.ServePrivateFile` | private_media/views.py:49-54 | the view calls `serve` only when permission is granted, and returns or raises what `ServePrivateFileResult` describes |

## Left out

- `Servers.GetUrl`: the result is kept as text. The `.encode('utf-8')` to bytes is not modelled.
- `Servers.GetMimetype`: `mimetypes.guess_type` is a parameter. Its extension table is not modelled.
- `Servers.ServeResult`: `was_modified_since` and `http_date` are parameters. The second-granularity If-Modified-Since comparison and the HTTP-date format live in Django and are not modelled.
- `Servers.Serve`: `os.path.exists` is modelled as membership in the file map. A directory path (which exists but cannot be opened) and read errors are not modelled.
- `Servers.PrepareResponse`: when the Nginx variant raises on its second assignment, the object keeps the first header; the contract states only its status and body, because `serve` discards that object.
- `Servers.ApacheServeRaises`: the `TypeError` carries a fixed description of the arity error (`GetFullPathArity`). Python's own message differs between versions and is not modelled.
- `Http.HttpResponse`: headers are a map keyed by the exact name. Django's case-insensitive header names, header order and the response charset are not modelled. `smart_str` is the identity on text.
- `Http.WithHeader`: Django's header check is modelled as refusing CR and LF. Its encoding of non-ASCII values (and the errors that can raise) is not modelled.
- The `request` argument of `prepare_response` is unused except in Apache's faulty call, so the model omits it.
- Settings: `PRIVATE_MEDIA_ROOT` and `PRIVATE_MEDIA_INTERNAL_URL` are always present. The AttributeError a missing one would raise is not modelled. Setting values are typed (strings, an optional bool), not arbitrary Python values.
- `Views.GetClass`: `import_module` is a lookup in a map. Importing a package's submodule through a relative path (which needs a package argument the code never passes) and import side effects are not modelled.
- Module-level construction in `views.py`: instantiating the loaded classes with `PRIVATE_MEDIA_SERVER_OPTIONS` / `PRIVATE_MEDIA_PERMISSIONS_OPTIONS` is not modelled. The server and permissions object are given as configuration (`Views.App`).
- The permission policy (`private_media/permissions.py`) is not part of this model. `has_read_permission` is an opaque oracle.
- `private_media/urls.py` (URL registration) and `setup.py` (packaging) have no behaviour to model.
- The `X-Sendfile` value Apache's `prepare_response` was evidently meant to set is not modelled, because the code as written never reaches that assignment.
- Logging (`logger`) is unused by the modelled code.
