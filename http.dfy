/**
 * The parts of Django's HTTP layer the servers use: a response object whose
 * header mapping is assigned to in place, the exceptions the views raise, and
 * the request's META dictionary.
 */
module Http {
  import opened Wrappers

  newtype byte = x: int | 0 <= x < 256

  const StatusOk: nat := 200
  const StatusNotModified: nat := 304

  const ContentType := "Content-Type"
  const ContentDisposition := "Content-Disposition"
  const LastModified := "Last-Modified"
  const XAccelRedirect := "X-Accel-Redirect"
  const XSendfile := "X-Sendfile"

  /** Content type of an `HttpResponse()` built without one. */
  const DefaultContentType := "text/html; charset=utf-8"

  /** A response as a value: status code, header mapping and body bytes. */
  datatype Response = Response(status: nat, headers: map<string, string>, body: seq<byte>)

  /** The exceptions raised on the paths this model covers. */
  datatype Exception =
    | Http404(message: string)
    | PermissionDenied
    | TypeError(message: string)
    | BadHeaderError(value: string)   // Django refuses a header value with a line break

  /** An incoming request, reduced to its META dictionary. */
  datatype Request = Request(meta: map<string, string>) {
    /** `request.META.get('HTTP_IF_MODIFIED_SINCE')` */
    function IfModifiedSince(): (r: Option<string>)
      ensures r.Some? <==> "HTTP_IF_MODIFIED_SINCE" in meta
      ensures r.Some? ==> r.value == meta["HTTP_IF_MODIFIED_SINCE"]
    {
      if "HTTP_IF_MODIFIED_SINCE" in meta then Some(meta["HTTP_IF_MODIFIED_SINCE"]) else None
    }
  }

  /** A header value Django accepts: it holds neither CR nor LF. */
  predicate HeaderSafe(value: string) {
    '\r' !in value && '\n' !in value
  }

  /** No header value of the response holds a line break. */
  predicate Clean(resp: Response) {
    forall h :: h in resp.headers ==> HeaderSafe(resp.headers[h])
  }

  /**
   * `response[name] = value` on a response value: Django raises
   * BadHeaderError for a value with a line break and otherwise sets that one
   * header, so a response built this way never carries a line break.
   */
  function WithHeader(resp: Response, name: string, value: string): (r: Result<Response, Exception>)
    ensures r.Err? <==> !HeaderSafe(value)
    ensures r.Err? ==> r.error == BadHeaderError(value)
    ensures r.Ok? ==> r.value.status == resp.status && r.value.body == resp.body
    ensures r.Ok? ==> r.value.headers == resp.headers[name := value]
    ensures r.Ok? && Clean(resp) ==> Clean(r.value)
  {
    if HeaderSafe(value) then Ok(resp.(headers := resp.headers[name := value]))
    else Err(BadHeaderError(value))
  }

  /** The default content type holds no line break. */
  lemma DefaultContentTypeSafe()
    ensures HeaderSafe(DefaultContentType)
  {
    var v := DefaultContentType;
    assert forall i :: 0 <= i < |v| ==> v[i] != '\r' && v[i] != '\n';
  }

  /** Sets a further header unless an earlier step already raised. */
  function AndHeader(prior: Result<Response, Exception>, name: string, value: string): Result<Response, Exception> {
    match prior
    case Ok(resp) => WithHeader(resp, name, value)
    case Err(e) => Err(e)
  }

  /** Django's `HttpResponse`: an object whose headers are assigned in place. */
  class HttpResponse {
    var status: nat
    var headers: map<string, string>
    var body: seq<byte>

    /** The response's current state as a value. */
    function Value(): Response
      reads this
    {
      Response(status, headers, body)
    }

    /**
     * The response object before its constructor assigns Content-Type; that
     * assignment is a `SetHeader` call, which may raise like any other.
     */
    constructor (status: nat, body: seq<byte>)
      ensures Value() == Response(status, map[], body)
    {
      this.status := status;
      this.body := body;
      this.headers := map[];
    }

    /** `response[name] = value`: sets one header, or raises and changes nothing. */
    method SetHeader(name: string, value: string) returns (raised: Option<Exception>)
      modifies this
      ensures match WithHeader(old(Value()), name, value)
        case Ok(v) => raised.None? && Value() == v
        case Err(e) => raised == Some(e) && Value() == old(Value())
    {
      if HeaderSafe(value) {
        headers := headers[name := value];
        raised := None;
      } else {
        raised := Some(BadHeaderError(value));
      }
    }

    /** `del response[name]`: removes the header if present; nothing else changes. */
    method DeleteHeader(name: string)
      modifies this
      ensures Value() == old(Value()).(headers := old(headers) - {name})
    {
      headers := headers - {name};
    }
  }

  /** What a call that builds a response gives back: the object, or the exception raised. */
  datatype Outcome = Returned(response: HttpResponse) | Raised(error: Exception)

  /** `out` is the fresh object or the exception that `expected` describes. */
  predicate Delivers(out: Outcome, expected: Result<Response, Exception>)
    reads if out.Returned? then {out.response} else {}
  {
    match out
    case Returned(resp) => expected.Ok? && resp.Value() == expected.value
    case Raised(e) => expected == Err(e)
  }
}
