/** The decisions of the HTTP gateway (`internal/httpapi`): which request
    id a request carries, whether the bearer header admits it, where it is
    routed, how each handler turns its input and its service's outcome
    into a reply, and how errors become status codes and details. The
    services are parameters; JSON and multipart decoding are their
    outcomes (`JsonBody`, `Upload`). */
module Gateway {
  import opened Wrappers
  import opened Errors
  import Text
  import Numbers
  import GoQuote
  import Api
  import Upstream
  import PostProcess
  import Pipeline
  import Configuration

  const StatusOK := 200
  const StatusBadRequest := 400
  const StatusUnauthorized := 401
  const StatusNotFound := 404
  const StatusMethodNotAllowed := 405
  const StatusRequestEntityTooLarge := 413
  /** nginx's "client closed request", which the gateway uses for a
      canceled request. */
  const StatusClientClosedRequest := 499
  const StatusInternalServerError := 500
  const StatusBadGateway := 502
  const StatusServiceUnavailable := 503
  const StatusGatewayTimeout := 504

  /** The largest JSON body the post-process endpoint reads: 1 MiB. */
  const MaxJsonBodyBytes: int := 0x10_0000

  const BearerPrefix: string := "Bearer "
  const ServiceName: string := "EchoFlow"

  /** The status the post-process endpoint reports; the pipeline's own
      success status is capitalised differently. */
  const PostProcessSucceeded: string := "post-processing succeeded"

  /** The arguments of `writeError`: status, code, message and details. */
  datatype Failure = Failure(status: int, code: string, message: string, details: Option<Api.Details>)

  /** What `writeError` sends: the status, the `X-Request-Id` header it
      sets (none when the request has no id) and the envelope. */
  datatype ErrorReply = ErrorReply(status: int, requestIdHeader: Option<string>, body: Api.ErrorResponse)

  /** `writeError`: the envelope carries the request id, and the header is
      set to the same id whenever there is one. */
  function WriteError(requestId: string, f: Failure): (r: ErrorReply)
    ensures r.status == f.status
    ensures r.body.error == Api.APIError(f.code, f.message, f.details)
    ensures r.body.requestId == requestId
    ensures r.requestIdHeader.Some? <==> requestId != ""
    ensures r.requestIdHeader.Some? ==> r.requestIdHeader.value == r.body.requestId
  {
    ErrorReply(
      f.status,
      if requestId != "" then Some(requestId) else None,
      Api.ErrorResponse(Api.APIError(f.code, f.message, f.details), requestId))
  }

  // ---------------------------------------------------------------------
  // Request ids

  /** `hex.EncodeToString`: two lower-case digits per byte, high nibble
      first. */
  function HexEncode(bytes: seq<bv8>): (r: string)
    ensures |r| == 2 * |bytes|
    ensures forall i :: 0 <= i < |r| ==> GoQuote.IsHex(r[i]) && r[i] != 'r'
  {
    if |bytes| == 0 then ""
    else
      var b := bytes[0] as int;
      [GoQuote.HexDigit(b / 16), GoQuote.HexDigit(b % 16)] + HexEncode(bytes[1..])
  }

  /** The bytes a string of hexadecimal digit pairs spells, if it is one. */
  function HexDecode(s: string): Option<seq<bv8>>
    decreases |s|
  {
    if |s| == 0 then Some([])
    else if |s| == 1 || !GoQuote.IsHex(s[0]) || !GoQuote.IsHex(s[1]) then None
    else
      match HexDecode(s[2..])
      case None => None
      case Some(rest) => Some([(GoQuote.HexValue(s[0]) * 16 + GoQuote.HexValue(s[1])) as bv8] + rest)
  }

  /** Hex encoding loses nothing: decoding gives the bytes back. */
  lemma {:induction false} HexRoundTrip(bytes: seq<bv8>)
    ensures HexDecode(HexEncode(bytes)) == Some(bytes)
    decreases |bytes|
  {
    if |bytes| > 0 {
      var s := HexEncode(bytes);
      var b := bytes[0] as int;
      assert s[2..] == HexEncode(bytes[1..]);
      HexRoundTrip(bytes[1..]);
      HexPairRoundTrip(b);
      assert b as bv8 == bytes[0];
      assert bytes == [bytes[0]] + bytes[1..];
    }
  }

  /** The two digits of one byte spell that byte. */
  lemma HexPairRoundTrip(b: int)
    requires 0 <= b < 256
    ensures GoQuote.HexValue(GoQuote.HexDigit(b / 16)) * 16 + GoQuote.HexValue(GoQuote.HexDigit(b % 16)) == b
  {
    HexDigitReadsBack(b / 16);
    HexDigitReadsBack(b % 16);
  }

  lemma HexDigitReadsBack(d: nat)
    requires d < 16
    ensures GoQuote.IsHex(GoQuote.HexDigit(d)) && GoQuote.HexValue(GoQuote.HexDigit(d)) == d
  {
  }

  /** `newRequestID`: twelve random bytes in hexadecimal, or, when the
      random source fails (`random` is None), "req-" and the Unix time in
      nanoseconds. The random bytes and the clock are parameters. */
  function NewRequestId(random: Option<seq<bv8>>, unixNano: int): (r: string)
    requires random.Some? ==> |random.value| == 12
    requires Numbers.Int64Min <= unixNano <= Numbers.Int64Max
    ensures r != ""
    ensures random.Some? ==> |r| == 24 && HexDecode(r) == random
    ensures random.None? ==>
      && Text.HasPrefix(r, "req-")
      && Numbers.ParseInt64(r[4..]) == Ok(unixNano)
  {
    match random
    case Some(bytes) =>
      HexRoundTrip(bytes);
      HexEncode(bytes)
    case None =>
      var r := "req-" + Numbers.FormatInt(unixNano);
      assert r[4..] == Numbers.FormatInt(unixNano);
      Numbers.ParseFormatInt(unixNano);
      r
  }

  /** The two kinds of fresh id never look alike: a random one has no 'r'
      where a fallback one starts with "req-". */
  lemma FreshIdsAreDistinguishable(bytes: seq<bv8>, unixNano: int)
    requires |bytes| == 12 && Numbers.Int64Min <= unixNano <= Numbers.Int64Max
    ensures NewRequestId(Some(bytes), unixNano)[0] != NewRequestId(None, unixNano)[0]
  {
  }

  /** The request id of `requestIDMiddleware`: the inbound `X-Request-Id`
      trimmed, or a fresh id when that is blank. */
  function RequestId(inbound: string, random: Option<seq<bv8>>, unixNano: int): (r: string)
    requires random.Some? ==> |random.value| == 12
    requires Numbers.Int64Min <= unixNano <= Numbers.Int64Max
    ensures r != ""
    ensures !Text.AllSpace(inbound) ==> r == Text.TrimSpace(inbound)
    ensures Text.AllSpace(inbound) ==> r == NewRequestId(random, unixNano)
  {
    Text.TrimmedOr(inbound, NewRequestId(random, unixNano))
  }

  /** An inbound id is echoed without its padding, whatever the random
      source would have given. */
  lemma InboundRequestIdKept(
    a: string, id: string, b: string,
    random: Option<seq<bv8>>, otherRandom: Option<seq<bv8>>, unixNano: int)
    requires Text.AllSpace(a) && Text.AllSpace(b) && Text.IsTrimmed(id) && id != ""
    requires random.Some? ==> |random.value| == 12
    requires otherRandom.Some? ==> |otherRandom.value| == 12
    requires Numbers.Int64Min <= unixNano <= Numbers.Int64Max
    ensures RequestId(a + id + b, random, unixNano) == id
    ensures RequestId(a + id + b, random, unixNano) == RequestId(a + id + b, otherRandom, unixNano)
  {
    Text.TrimSpaceOfPadded(a, id, b);
  }

  // ---------------------------------------------------------------------
  // Authentication

  /** The three results of `extractBearerToken`. */
  datatype BearerHeader = BearerHeader(token: string, hasHeader: bool, ok: bool)

  /** `extractBearerToken`: a blank header is no header and is fine; a
      header must then start with "Bearer " (case-sensitive) and carry a
      non-blank token, which comes back trimmed. */
  function ExtractBearerToken(header: string): (r: BearerHeader)
    ensures !r.hasHeader <==> Text.AllSpace(header)
    ensures !r.hasHeader ==> r.ok && r.token == ""
    ensures r.hasHeader ==> (r.ok <==> r.token != "")
    ensures Text.IsTrimmed(r.token)
    ensures r.ok && r.hasHeader ==> Text.HasPrefix(Text.TrimSpace(header), BearerPrefix)
    ensures !Text.HasPrefix(Text.TrimSpace(header), BearerPrefix) ==> r.token == ""
  {
    var h := Text.TrimSpace(header);
    if h == "" then BearerHeader("", false, true)
    else if !Text.HasPrefix(h, BearerPrefix) then BearerHeader("", true, false)
    else
      var token := Text.TrimSpace(h[|BearerPrefix|..]);
      if token == "" then BearerHeader("", true, false) else BearerHeader(token, true, true)
  }

  /** "Bearer " followed by a token, with any padding around the header
      and between the scheme and the token, yields exactly that token. */
  lemma BearerTokenRoundTrip(a: string, gap: string, token: string, b: string)
    requires Text.AllSpace(a) && Text.AllSpace(gap) && Text.AllSpace(b)
    requires Text.IsTrimmed(token) && token != ""
    ensures ExtractBearerToken(a + (BearerPrefix + (gap + token)) + b) == BearerHeader(token, true, true)
  {
    var x := BearerPrefix + (gap + token);
    assert x[|x| - 1] == token[|token| - 1];
    Text.TrimSpaceOfPadded(a, x, b);
    assert x[..|BearerPrefix|] == BearerPrefix;
    assert x[|BearerPrefix|..] == gap + token + "";
    Text.TrimSpaceOfPadded(gap, token, "");
  }

  /** The scheme is matched case-sensitively: "bearer" with a token that
      would otherwise pass is a malformed header. */
  lemma LowerCaseSchemeIsMalformed(a: string, token: string, b: string)
    requires Text.AllSpace(a) && Text.AllSpace(b)
    requires Text.IsTrimmed(token) && token != ""
    ensures ExtractBearerToken(a + ("bearer " + token) + b) == BearerHeader("", true, false)
  {
    var x := "bearer " + token;
    assert x[|x| - 1] == token[|token| - 1];
    Text.TrimSpaceOfPadded(a, x, b);
    assert x[0] != BearerPrefix[0];
  }

  /** The scheme alone, however padded, is a malformed header. */
  lemma SchemeWithoutTokenIsMalformed(a: string, b: string)
    requires Text.AllSpace(a) && Text.AllSpace(b)
    ensures ExtractBearerToken(a + "Bearer" + (" " + b)) == BearerHeader("", true, false)
  {
    Text.AllSpaceConcat(" ", b);
    Text.TrimSpaceOfPadded(a, "Bearer", " " + b);
  }

  /** `isPublicPath`: the paths that need no credentials. */
  predicate IsPublicPath(path: string) {
    path == "/healthz" || path == "/readyz" || path == "/metrics"
  }

  /** The public paths are exactly the paths of the two probes and of the
      metrics endpoint. */
  lemma PublicPathsAreProbes(path: string)
    ensures IsPublicPath(path) <==> exists e :: IsProbe(e) && PathOf(e) == path
  {
    if path == "/healthz" { assert PathOf(Healthz) == path; }
    if path == "/readyz" { assert PathOf(Readyz) == path; }
    if path == "/metrics" { assert PathOf(Metrics) == path; }
  }

  /** What `authMiddleware` decides: a refusal, or admission with the
      request's own upstream key when it brought one. */
  datatype Admission = Refused(failure: Failure) | Admitted(requestKey: Option<string>)

  const MalformedAuthorization: Failure :=
    Failure(StatusUnauthorized, "unauthorized", "Authorization must be Bearer <groq_cloud_token>", None)

  const MissingToken: Failure :=
    Failure(StatusUnauthorized, "unauthorized", "missing Groq Cloud bearer token", None)

  /** `authMiddleware`: a malformed header is refused on every path; a
      request without a token is refused off the public paths only when
      the server has no upstream key of its own; a token that is present
      becomes the request's upstream key. */
  function Authorize(path: string, authorization: string, serverKey: string): (r: Admission)
    ensures var b := ExtractBearerToken(authorization);
      && (b.hasHeader && !b.ok ==> r == Refused(MalformedAuthorization))
      && (b.ok && !IsPublicPath(path) && b.token == "" && serverKey == "" ==> r == Refused(MissingToken))
      && (r.Admitted? ==> r.requestKey == (if b.token == "" then None else Some(b.token)))
    ensures r.Refused? ==> r.failure.status == StatusUnauthorized
    ensures r.Admitted? && r.requestKey.Some? ==> r.requestKey.value != "" && Text.IsTrimmed(r.requestKey.value)
  {
    var b := ExtractBearerToken(authorization);
    if b.hasHeader && !b.ok then Refused(MalformedAuthorization)
    else if !IsPublicPath(path) && b.token == "" && serverKey == "" then Refused(MissingToken)
    else Admitted(if b.token != "" then Some(b.token) else None)
  }

  /** A request is admitted exactly when its header is well formed and it
      is on a public path, brings a token, or meets a server key. */
  lemma AuthorizeAdmitsExactly(path: string, authorization: string, serverKey: string)
    ensures var b := ExtractBearerToken(authorization);
      Authorize(path, authorization, serverKey).Admitted? <==>
        b.ok && (IsPublicPath(path) || b.token != "" || serverKey != "")
  {
  }

  /** A malformed header is refused before the path or the server key is
      looked at, so it is refused on "/healthz" too. */
  lemma MalformedHeaderRefusedEverywhere(
    path: string, otherPath: string, authorization: string, serverKey: string, otherKey: string)
    requires ExtractBearerToken(authorization).hasHeader && !ExtractBearerToken(authorization).ok
    ensures Authorize(path, authorization, serverKey) == Refused(MalformedAuthorization)
    ensures Authorize(path, authorization, serverKey) == Authorize(otherPath, authorization, otherKey)
  {
  }

  /** A well-formed token is admitted on every path and travels on as the
      request's upstream key. */
  lemma BearerTokenAdmitted(path: string, a: string, gap: string, token: string, b: string, serverKey: string)
    requires Text.AllSpace(a) && Text.AllSpace(gap) && Text.AllSpace(b)
    requires Text.IsTrimmed(token) && token != ""
    ensures Authorize(path, a + (BearerPrefix + (gap + token)) + b, serverKey) == Admitted(Some(token))
  {
    BearerTokenRoundTrip(a, gap, token, b);
  }

  // ---------------------------------------------------------------------
  // Routing

  datatype Endpoint = Healthz | Readyz | Metrics | Transcriptions | PostProcessEndpoint | PipelineProcess

  datatype RouteResult = Found(endpoint: Endpoint) | NotFound | MethodNotAllowed

  /** The path each endpoint is mounted on. */
  function PathOf(e: Endpoint): string {
    match e
    case Healthz => "/healthz"
    case Readyz => "/readyz"
    case Metrics => "/metrics"
    case Transcriptions => "/v1/transcriptions"
    case PostProcessEndpoint => "/v1/post-process"
    case PipelineProcess => "/v1/pipeline/process"
  }

  /** The health, readiness and metrics endpoints. */
  predicate IsProbe(e: Endpoint) {
    e == Healthz || e == Readyz || e == Metrics
  }

  /** The methods chi's router knows, spelled exactly (upper case). */
  predicate KnownMethod(verb: string) {
    verb in {"CONNECT", "DELETE", "GET", "HEAD", "OPTIONS", "PATCH", "POST", "PUT", "TRACE"}
  }

  /** The method each endpoint answers; "/metrics" answers every method
      the router knows. */
  predicate Accepts(e: Endpoint, verb: string) {
    match e
    case Healthz => verb == "GET"
    case Readyz => verb == "GET"
    case Metrics => KnownMethod(verb)
    case _ => verb == "POST"
  }

  /** The router of `NewServer`: a method the router does not know is
      refused before any path is looked at; otherwise an exact path match,
      the method checked after the path; "/metrics" exists only when a
      metrics handler is configured. */
  function Route(verb: string, path: string, hasMetrics: bool): (r: RouteResult)
    ensures r.Found? ==> PathOf(r.endpoint) == path && Accepts(r.endpoint, verb)
    ensures r.Found? && r.endpoint == Metrics ==> hasMetrics
    ensures !KnownMethod(verb) ==> r == MethodNotAllowed
    ensures r.MethodNotAllowed? && KnownMethod(verb) ==> path != "/metrics"
  {
    if !KnownMethod(verb) then MethodNotAllowed
    else if path == "/healthz" then (if verb == "GET" then Found(Healthz) else MethodNotAllowed)
    else if path == "/readyz" then (if verb == "GET" then Found(Readyz) else MethodNotAllowed)
    else if path == "/metrics" && hasMetrics then Found(Metrics)
    else if path == "/v1/transcriptions" then (if verb == "POST" then Found(Transcriptions) else MethodNotAllowed)
    else if path == "/v1/post-process" then (if verb == "POST" then Found(PostProcessEndpoint) else MethodNotAllowed)
    else if path == "/v1/pipeline/process" then (if verb == "POST" then Found(PipelineProcess) else MethodNotAllowed)
    else NotFound
  }

  /** Every mounted endpoint is reached by its own path and method. */
  lemma RouteFindsEveryEndpoint(e: Endpoint, verb: string)
    requires Accepts(e, verb)
    ensures Route(verb, PathOf(e), true) == Found(e)
  {
  }

  /** A path is not found exactly when the method is known and no mounted
      endpoint has the path; a refused method is one that no endpoint on
      the path accepts, and for a known method some endpoint has the path. */
  lemma RouteNotFoundExactly(verb: string, path: string, hasMetrics: bool)
    ensures Route(verb, path, hasMetrics).NotFound? <==>
      KnownMethod(verb) && forall e: Endpoint :: PathOf(e) == path ==> e == Metrics && !hasMetrics
    ensures Route(verb, path, hasMetrics).MethodNotAllowed? ==>
      forall e: Endpoint :: PathOf(e) == path ==> !Accepts(e, verb)
    ensures Route(verb, path, hasMetrics).MethodNotAllowed? && KnownMethod(verb) ==>
      exists e: Endpoint :: PathOf(e) == path && !Accepts(e, verb)
  {
    var r := Route(verb, path, hasMetrics);
    if !r.NotFound? && KnownMethod(verb) {
      var e: Endpoint :=
        if path == "/healthz" then Healthz
        else if path == "/readyz" then Readyz
        else if path == "/metrics" then Metrics
        else if path == "/v1/transcriptions" then Transcriptions
        else if path == "/v1/post-process" then PostProcessEndpoint
        else PipelineProcess;
      assert PathOf(e) == path;
      assert !(e == Metrics && !hasMetrics);
    }
  }

  const RouteNotFound: Failure := Failure(StatusNotFound, "not_found", "route not found", None)

  const MethodRefused: Failure := Failure(StatusMethodNotAllowed, "method_not_allowed", "method not allowed", None)

  /** The parts of a request the middleware reads. */
  datatype HttpRequest = HttpRequest(verb: string, path: string, authorization: string, requestIdHeader: string)

  /** Where the middleware chain leaves a request: refused with an error
      reply, or handed to an endpoint with the request's upstream key. */
  datatype Front =
    | Rejected(reply: ErrorReply)
    | Dispatched(endpoint: Endpoint, requestKey: Option<string>)

  /** The middleware chain in `NewServer`'s order: the request id first,
      then authentication, then the router; every reply carries the id in
      its header and in its envelope. */
  function Serve(
    serverKey: string, hasMetrics: bool, req: HttpRequest,
    random: Option<seq<bv8>>, unixNano: int): (r: (string, Front))
    requires random.Some? ==> |random.value| == 12
    requires Numbers.Int64Min <= unixNano <= Numbers.Int64Max
    ensures r.0 == RequestId(req.requestIdHeader, random, unixNano)
    ensures r.1.Rejected? ==> r.1.reply.requestIdHeader == Some(r.0) && r.1.reply.body.requestId == r.0
    ensures Authorize(req.path, req.authorization, serverKey).Refused? ==>
      r.1 == Rejected(WriteError(r.0, Authorize(req.path, req.authorization, serverKey).failure))
    ensures r.1.Dispatched? <==>
      Authorize(req.path, req.authorization, serverKey).Admitted? && Route(req.verb, req.path, hasMetrics).Found?
    ensures r.1.Dispatched? ==>
      && r.1.endpoint == Route(req.verb, req.path, hasMetrics).endpoint
      && r.1.requestKey == Authorize(req.path, req.authorization, serverKey).requestKey
  {
    var requestId := RequestId(req.requestIdHeader, random, unixNano);
    match Authorize(req.path, req.authorization, serverKey)
    case Refused(f) => (requestId, Rejected(WriteError(requestId, f)))
    case Admitted(key) =>
      match Route(req.verb, req.path, hasMetrics)
      case NotFound => (requestId, Rejected(WriteError(requestId, RouteNotFound)))
      case MethodNotAllowed => (requestId, Rejected(WriteError(requestId, MethodRefused)))
      case Found(e) => (requestId, Dispatched(e, key))
  }

  /** Authentication runs before routing: without a token and without a
      server key, an unknown path is refused with 401, not 404. */
  lemma UnknownPathNeedsCredentialsFirst(
    req: HttpRequest, random: Option<seq<bv8>>, unixNano: int)
    requires random.Some? ==> |random.value| == 12
    requires Numbers.Int64Min <= unixNano <= Numbers.Int64Max
    requires Text.AllSpace(req.authorization)
    requires Route(req.verb, req.path, false).NotFound? && req.path != "/metrics"
    ensures Serve("", false, req, random, unixNano).1.Rejected?
    ensures Serve("", false, req, random, unixNano).1.reply.status == StatusUnauthorized
  {
    assert !IsPublicPath(req.path);
    assert Authorize(req.path, req.authorization, "") == Refused(MissingToken);
  }

  // ---------------------------------------------------------------------
  // Errors

  /** `detailsForError`: nothing for no error; otherwise the error's text
      under "error", and for an upstream error its status under
      "upstream_status" and its body under "upstream_body" when the body is
      not empty. */
  function DetailsForError(err: Option<Error>): (r: Option<Api.Details>)
    ensures err.None? <==> r.None?
    ensures r.Some? ==>
      && r.value.Keys <= {"error", "upstream_status", "upstream_body"}
      && "error" in r.value && r.value["error"] == Api.Text(err.value.message)
      && ("upstream_status" in r.value <==> err.value.upstream.Some?)
      && ("upstream_body" in r.value <==> err.value.upstream.Some? && err.value.upstream.value.body != "")
    ensures r.Some? && err.value.upstream.Some? ==>
      && r.value["upstream_status"] == Api.Number(err.value.upstream.value.statusCode)
      && (err.value.upstream.value.body != "" ==> r.value["upstream_body"] == Api.Text(err.value.upstream.value.body))
  {
    match err
    case None => None
    case Some(e) =>
      var base := map["error" := Api.Text(e.message)];
      match e.upstream
      case None => Some(base)
      case Some(u) =>
        var withStatus := base["upstream_status" := Api.Number(u.statusCode)];
        Some(if u.body != "" then withStatus["upstream_body" := Api.Text(u.body)] else withStatus)
  }

  /** What a client can read back from the details: the error's text and,
      for an upstream error, its status and body (an absent body is an
      empty one). */
  function ReadDetails(d: Api.Details): Option<(string, Option<UpstreamError>)> {
    if "error" !in d || !d["error"].Text? then None
    else if "upstream_status" !in d then Some((d["error"].text, None))
    else if !d["upstream_status"].Number? then None
    else
      var body := if "upstream_body" in d && d["upstream_body"].Text? then d["upstream_body"].text else "";
      Some((d["error"].text, Some(UpstreamError(d["upstream_status"].number, body))))
  }

  /** The details lose nothing the gateway knows about an upstream error:
      its text, status and body all read back. */
  lemma DetailsReadBack(e: Error)
    ensures DetailsForError(Some(e)).Some?
    ensures ReadDetails(DetailsForError(Some(e)).value) == Some((e.message, e.upstream))
  {
  }

  /** `writeMappedError`: an upstream error in the chain is a 502; else a
      deadline is a 504; else a cancellation is a 499; anything else is a
      500. The details are always those of the error. */
  function MapError(e: Error): (r: Failure)
    ensures r.details == DetailsForError(Some(e))
    ensures e.upstream.Some? ==>
      r.status == StatusBadGateway && r.code == "upstream_request_failed" && r.message == "upstream request failed"
    ensures e.upstream.None? && e.deadlineExceeded ==>
      r.status == StatusGatewayTimeout && r.code == "timeout" && r.message == "request timed out"
    ensures e.upstream.None? && !e.deadlineExceeded && e.canceled ==>
      r.status == StatusClientClosedRequest && r.code == "canceled" && r.message == "request canceled"
    ensures e.upstream.None? && !e.deadlineExceeded && !e.canceled ==>
      r.status == StatusInternalServerError && r.code == "internal_error" && r.message == "request failed"
  {
    var details := DetailsForError(Some(e));
    if e.upstream.Some? then Failure(StatusBadGateway, "upstream_request_failed", "upstream request failed", details)
    else if e.deadlineExceeded then Failure(StatusGatewayTimeout, "timeout", "request timed out", details)
    else if e.canceled then Failure(StatusClientClosedRequest, "canceled", "request canceled", details)
    else Failure(StatusInternalServerError, "internal_error", "request failed", details)
  }

  /** The status alone tells which kind of error it was, with an upstream
      error taking precedence over a deadline and a deadline over a
      cancellation. */
  lemma MapErrorStatusTellsKind(e: Error)
    ensures MapError(e).status in {StatusBadGateway, StatusGatewayTimeout, StatusClientClosedRequest, StatusInternalServerError}
    ensures MapError(e).status == StatusBadGateway <==> e.upstream.Some?
    ensures MapError(e).status == StatusGatewayTimeout <==> e.upstream.None? && e.deadlineExceeded
    ensures MapError(e).status == StatusClientClosedRequest <==> e.upstream.None? && !e.deadlineExceeded && e.canceled
    ensures MapError(e).status == StatusInternalServerError <==> e.upstream.None? && !e.deadlineExceeded && !e.canceled
  {
  }

  // ---------------------------------------------------------------------
  // Handlers

  /** `handleHealthz`. */
  function HandleHealthz(): (r: Api.HealthResponse)
    ensures r.ok
  {
    Api.HealthResponse(true)
  }

  /** `handleReadyz`: without a server key and without a request key it is
      ready at once; otherwise the upstream model listing decides. A
      success is a 200; the check's own two-second timeout is not
      modelled. */
  function HandleReadyz(serverKey: string, requestKey: string, checkModels: () -> Outcome<()>): (r: Result<Api.ReadyResponse, Failure>)
    ensures r.Ok? ==> r.value == Api.ReadyResponse(true, ServiceName)
    ensures serverKey == "" && requestKey == "" ==> r.Ok?
    ensures serverKey != "" || requestKey != "" ==>
      && (checkModels().Ok? ==> r.Ok?)
      && (checkModels().Err? ==>
            r == Err(Failure(StatusServiceUnavailable, "not_ready", "upstream check failed",
                             DetailsForError(Some(checkModels().error)))))
  {
    if serverKey == "" && requestKey == "" then Ok(Api.ReadyResponse(true, ServiceName))
    else
      match checkModels()
      case Err(e) => Err(Failure(StatusServiceUnavailable, "not_ready", "upstream check failed", DetailsForError(Some(e))))
      case Ok(_) => Ok(Api.ReadyResponse(true, ServiceName))
  }

  /** Without any key the upstream is not consulted: the answer does not
      depend on the check. */
  lemma ReadyzSkipsCheckWithoutKeys(checkModels: () -> Outcome<()>, otherCheck: () -> Outcome<()>)
    ensures HandleReadyz("", "", checkModels) == HandleReadyz("", "", otherCheck)
  {
  }

  /** With a key, an upstream that answers the model listing with a status
      other than 200 makes the gateway not ready, and the details carry
      that status. */
  lemma ReadyzReportsUpstreamStatus(
    serverKey: string, requestKey: string, client: Upstream.Client,
    send: Upstream.Request -> Upstream.Reply, status: int, body: string)
    requires serverKey != "" || requestKey != ""
    requires status != Upstream.StatusOK
    requires send(Upstream.ModelsCall(client)) == Upstream.Response(status, body, None)
    ensures var r := HandleReadyz(serverKey, requestKey, () => Upstream.CheckModels(client, send));
      && r.Err?
      && r.error.status == StatusServiceUnavailable
      && r.error.details.Some?
      && "upstream_status" in r.error.details.value
      && r.error.details.value["upstream_status"] == Api.Number(status)
  {
    var e := UpstreamFailure(status, Upstream.TruncateBody(body));
    assert Upstream.CheckModels(client, send) == Err(e);
    assert HandleReadyz(serverKey, requestKey, () => Upstream.CheckModels(client, send)) ==
      Err(Failure(StatusServiceUnavailable, "not_ready", "upstream check failed", DetailsForError(Some(e))));
    var d := DetailsForError(Some(e));
    assert d.Some? && "upstream_status" in d.value;
  }

  /** `toModelTokenUsage`: nil stays nil, otherwise the three counts are
      copied. */
  function ToModelTokenUsage(u: Option<PostProcess.TokenUsage>): (r: Option<Api.TokenUsage>)
    ensures r.None? <==> u.None?
    ensures r.Some? ==>
      && r.value.promptTokens == u.value.promptTokens
      && r.value.completionTokens == u.value.completionTokens
      && r.value.totalTokens == u.value.totalTokens
  {
    match u
    case None => None
    case Some(t) => Some(Api.TokenUsage(t.promptTokens, t.completionTokens, t.totalTokens))
  }

  /** The converse copy, from the reply back to the service's record. */
  function FromModelTokenUsage(u: Option<Api.TokenUsage>): Option<PostProcess.TokenUsage> {
    match u
    case None => None
    case Some(t) => Some(PostProcess.TokenUsage(t.promptTokens, t.completionTokens, t.totalTokens))
  }

  /** The copy is lossless in both directions. */
  lemma TokenUsageRoundTrip(u: Option<PostProcess.TokenUsage>, v: Option<Api.TokenUsage>)
    ensures FromModelTokenUsage(ToModelTokenUsage(u)) == u
    ensures ToModelTokenUsage(FromModelTokenUsage(v)) == v
  {
  }

  /** What decoding the post-process body produced: the body ran past
      `MaxJsonBodyBytes`, or it was not exactly one JSON object of known
      fields (a syntax error, an unknown field, a trailing value), or the
      request it held. */
  datatype JsonBody = BodyTooLarge | Malformed | Decoded(request: Api.PostProcessRequest)

  /** The service input of a decoded request: every field as sent. */
  function PostProcessInputOf(req: Api.PostProcessRequest): (i: PostProcess.Input)
    ensures i.transcript == req.transcript && i.contextSummary == req.contextSummary
    ensures i.customVocabulary == req.customVocabulary && i.customSystemPrompt == req.customSystemPrompt
    ensures i.model == req.model && i.includeDebugPrompt == req.includeDebugPrompt
  {
    PostProcess.Input(req.transcript, req.contextSummary, req.customVocabulary,
                      req.customSystemPrompt, req.model, req.includeDebugPrompt)
  }

  const JsonTooLarge: Failure := Failure(StatusRequestEntityTooLarge, "request_too_large", "JSON body too large", None)

  const InvalidJson: Failure := Failure(StatusBadRequest, "invalid_request", "invalid JSON body", None)

  const TranscriptRequired: Failure := Failure(StatusBadRequest, "invalid_request", "transcript is required", None)

  /** `handlePostProcess`: decoding errors first, then a blank transcript,
      both without calling the service; then the service's error through
      the error table, or its result as a 200. */
  function HandlePostProcess(
    body: JsonBody, process: PostProcess.Input -> Outcome<PostProcess.Result>): (r: Result<Api.PostProcessResponse, Failure>)
    ensures body.BodyTooLarge? ==> r == Err(JsonTooLarge)
    ensures body.Malformed? ==> r == Err(InvalidJson)
    ensures body.Decoded? && Text.AllSpace(body.request.transcript) ==> r == Err(TranscriptRequired)
    ensures body.Decoded? && !Text.AllSpace(body.request.transcript) ==>
      var out := process(PostProcessInputOf(body.request));
      && (out.Err? ==> r == Err(MapError(out.error)))
      && (out.Ok? ==> r.Ok? && r.value.transcript == out.value.transcript)
      && (out.Ok? ==> r.value.status == PostProcessSucceeded)
      && (out.Ok? ==> FromModelTokenUsage(r.value.usage) == out.value.usage)
  {
    match body
    case BodyTooLarge => Err(JsonTooLarge)
    case Malformed => Err(InvalidJson)
    case Decoded(req) =>
      if Text.TrimSpace(req.transcript) == "" then Err(TranscriptRequired)
      else
        match process(PostProcessInputOf(req))
        case Err(e) => Err(MapError(e))
        case Ok(result) =>
          TokenUsageRoundTrip(result.usage, None);
          Ok(Api.PostProcessResponse(result.transcript, PostProcessSucceeded, ToModelTokenUsage(result.usage)))
  }

  /** A request that is refused before the service is refused whatever the
      service would have done. */
  lemma RefusedPostProcessSkipsService(
    body: JsonBody,
    process: PostProcess.Input -> Outcome<PostProcess.Result>,
    otherProcess: PostProcess.Input -> Outcome<PostProcess.Result>)
    requires !body.Decoded? || Text.AllSpace(body.request.transcript)
    ensures HandlePostProcess(body, process).Err?
    ensures HandlePostProcess(body, process) == HandlePostProcess(body, otherProcess)
  {
  }

  /** End to end: when the chat completion behind the post-processing
      service answers with a status other than 200, the endpoint replies
      502 and its details carry that status. */
  lemma PostProcessUpstreamFailureIs502(
    req: Api.PostProcessRequest, s: PostProcess.Service,
    chat: Upstream.ChatCompletionRequest -> Outcome<Upstream.ChatCompletionResponse>,
    status: int, replyBody: string)
    requires !Text.AllSpace(req.transcript)
    requires chat(PostProcess.ChatRequest(s, PostProcessInputOf(req))) == Err(UpstreamFailure(status, replyBody))
    ensures var r := HandlePostProcess(Decoded(req), i => PostProcess.Process(s, i, chat));
      && r.Err?
      && r.error.status == StatusBadGateway
      && r.error.details.Some?
      && "upstream_status" in r.error.details.value
      && r.error.details.value["upstream_status"] == Api.Number(status)
  {
    var input := PostProcessInputOf(req);
    var e := UpstreamFailure(status, replyBody);
    assert PostProcess.Process(s, input, chat) == Err(e);
    UpstreamErrorIs502(req, i => PostProcess.Process(s, i, chat), e);
  }

  /** A service error with an upstream error inside becomes a 502 whose
      details name the upstream status. */
  lemma UpstreamErrorIs502(
    req: Api.PostProcessRequest, process: PostProcess.Input -> Outcome<PostProcess.Result>, e: Error)
    requires !Text.AllSpace(req.transcript)
    requires process(PostProcessInputOf(req)) == Err(e)
    requires e.upstream.Some?
    ensures var r := HandlePostProcess(Decoded(req), process);
      && r.Err?
      && r.error.status == StatusBadGateway
      && r.error.details.Some?
      && "upstream_status" in r.error.details.value
      && r.error.details.value["upstream_status"] == Api.Number(e.upstream.value.statusCode)
  {
    assert HandlePostProcess(Decoded(req), process) == Err(MapError(e));
    var d := DetailsForError(Some(e));
    assert d.Some? && "upstream_status" in d.value;
  }

  /** How reading a multipart upload failed: the body ran past the upload
      limit, or the form or its "file" part could not be read, with the
      error's text. */
  datatype MultipartError = UploadTooLarge | FormError(message: string)

  const FileRequired: string := "multipart field 'file' is required"

  const InvalidMultipart: string := "invalid multipart form data"

  /** Whether an error's text, lower-cased, speaks of a missing file. */
  predicate MentionsMissingFile(message: string) {
    Text.Contains(Text.ToLower(message), "no such file") || Text.Contains(Text.ToLower(message), "missing")
  }

  /** `handleMultipartReadError`: a body over the limit is a 413 naming the
      limit; an error mentioning a missing file asks for the "file" field;
      anything else is invalid form data. */
  function MultipartFailure(err: MultipartError, maxUploadBytes: int): (r: Failure)
    ensures r.details.None?
    ensures err.UploadTooLarge? ==>
      r == Failure(StatusRequestEntityTooLarge, "request_too_large",
                   "request exceeds " + Numbers.FormatInt(maxUploadBytes) + " bytes", None)
    ensures err.FormError? ==> r.status == StatusBadRequest && r.code == "invalid_request"
    ensures err.FormError? ==> (r.message == FileRequired <==> MentionsMissingFile(err.message))
    ensures err.FormError? ==> (r.message == InvalidMultipart <==> !MentionsMissingFile(err.message))
  {
    match err
    case UploadTooLarge =>
      Failure(StatusRequestEntityTooLarge, "request_too_large",
              "request exceeds " + Numbers.FormatInt(maxUploadBytes) + " bytes", None)
    case FormError(message) =>
      if MentionsMissingFile(message) then Failure(StatusBadRequest, "invalid_request", FileRequired, None)
      else Failure(StatusBadRequest, "invalid_request", InvalidMultipart, None)
  }

  /** The match ignores case and surroundings: any text containing a word
      that lower-cases to "missing" or "no such file" (Go's
      `http.ErrMissingFile` reads "http: no such file") asks for the file
      field. */
  lemma MissingFileInAnyCase(p: string, w: string, q: string, maxUploadBytes: int)
    requires Text.ToLower(w) == "missing" || Text.ToLower(w) == "no such file"
    ensures MultipartFailure(FormError(p + w + q), maxUploadBytes).message == FileRequired
  {
    Text.ToLowerConcat(p + w, q);
    Text.ToLowerConcat(p, w);
    Text.ContainsInfix(Text.ToLower(p), Text.ToLower(w), Text.ToLower(q));
  }

  /** `parseOptionalBool`: blank is false, otherwise one of
      `strconv.ParseBool`'s spellings, after trimming. */
  function ParseOptionalBool(value: string): (r: Option<bool>)
    ensures Text.AllSpace(value) ==> r == Some(false)
    ensures !Text.AllSpace(value) ==> r == Numbers.ParseBool(Text.TrimSpace(value))
  {
    var v := Text.TrimSpace(value);
    if v == "" then Some(false) else Numbers.ParseBool(v)
  }

  /** The form field follows the same rule as a boolean environment
      setting whose default is false. */
  lemma OptionalBoolMatchesBoolEnv(env: Configuration.Env, key: string)
    ensures var r := Configuration.BoolEnv(env, key, false);
      && (ParseOptionalBool(Configuration.Getenv(env, key)).Some? <==> r.Ok?)
      && (r.Ok? ==> ParseOptionalBool(Configuration.Getenv(env, key)) == Some(r.value))
  {
  }

  /** A multipart upload that was read: the file's name and the form's
      values (`FormValue`, "" for a missing field). The audio stream is
      bound into the services. */
  datatype Upload = Upload(fileName: string, form: string -> string)

  const InvalidIncludeDebug: Failure := Failure(StatusBadRequest, "invalid_request", "include_debug must be a boolean", None)

  /** `handleTranscriptions`: a failed upload through the multipart table,
      then the service with the file's name and the trimmed "model" field;
      its error through the error table, its text as a 200. */
  function HandleTranscriptions(
    upload: Result<Upload, MultipartError>, maxUploadBytes: int,
    transcribe: (string, string) -> Outcome<string>): (r: Result<Api.TranscriptionResponse, Failure>)
    ensures upload.Err? ==> r == Err(MultipartFailure(upload.error, maxUploadBytes))
    ensures upload.Ok? ==>
      var out := transcribe(upload.value.fileName, Text.TrimSpace(upload.value.form("model")));
      && (out.Err? ==> r == Err(MapError(out.error)))
      && (out.Ok? ==> r == Ok(Api.TranscriptionResponse(out.value)))
  {
    match upload
    case Err(e) => Err(MultipartFailure(e, maxUploadBytes))
    case Ok(u) =>
      match transcribe(u.fileName, Text.TrimSpace(u.form("model")))
      case Err(e) => Err(MapError(e))
      case Ok(text) => Ok(Api.TranscriptionResponse(text))
  }

  /** A failed upload is answered without the transcriber. */
  lemma FailedUploadSkipsTranscriber(
    e: MultipartError, maxUploadBytes: int,
    transcribe: (string, string) -> Outcome<string>,
    otherTranscribe: (string, string) -> Outcome<string>)
    ensures HandleTranscriptions(Err(e), maxUploadBytes, transcribe).Err?
    ensures HandleTranscriptions(Err(e), maxUploadBytes, transcribe) ==
            HandleTranscriptions(Err(e), maxUploadBytes, otherTranscribe)
  {
  }

  /** A blank "model" field reaches the transcriber as "", which leaves
      the choice of model to the service's default. */
  lemma BlankModelFieldIsEmpty(
    u: Upload, maxUploadBytes: int, transcribe: (string, string) -> Outcome<string>)
    requires Text.AllSpace(u.form("model"))
    ensures var out := transcribe(u.fileName, "");
      HandleTranscriptions(Ok(u), maxUploadBytes, transcribe) ==
        (if out.Ok? then Ok(Api.TranscriptionResponse(out.value)) else Err(MapError(out.error)))
  {
  }

  /** The pipeline input of an upload: the form values as sent. */
  function PipelineInputOf(u: Upload, includeDebug: bool): (i: Pipeline.ProcessInput)
    ensures i.fileName == u.fileName && i.contextSummary == u.form("context_summary")
    ensures i.customVocabulary == u.form("custom_vocabulary") && i.customSystemPrompt == u.form("custom_system_prompt")
    ensures i.transcriptionModel == u.form("transcription_model") && i.postProcessModel == u.form("post_process_model")
    ensures i.includeDebug == includeDebug
  {
    Pipeline.ProcessInput(
      u.fileName,
      u.form("context_summary"),
      u.form("custom_vocabulary"),
      u.form("custom_system_prompt"),
      u.form("transcription_model"),
      u.form("post_process_model"),
      includeDebug)
  }

  /** `handlePipelineProcess`: a failed upload through the multipart table;
      an "include_debug" that is not a boolean is a 400; then the pipeline,
      its error through the error table, its result as a 200 (timings
      aside). */
  function HandlePipelineProcess(
    upload: Result<Upload, MultipartError>, maxUploadBytes: int,
    process: Pipeline.ProcessInput -> Outcome<Pipeline.ProcessResult>): (r: Result<Api.PipelineProcessResponse, Failure>)
    ensures upload.Err? ==> r == Err(MultipartFailure(upload.error, maxUploadBytes))
    ensures upload.Ok? && ParseOptionalBool(upload.value.form("include_debug")).None? ==> r == Err(InvalidIncludeDebug)
    ensures upload.Ok? && ParseOptionalBool(upload.value.form("include_debug")).Some? ==>
      var out := process(PipelineInputOf(upload.value, ParseOptionalBool(upload.value.form("include_debug")).value));
      && (out.Err? ==> r == Err(MapError(out.error)))
      && (out.Ok? ==> r.Ok?)
      && (out.Ok? ==> r.value.rawTranscript == out.value.rawTranscript)
      && (out.Ok? ==> r.value.finalTranscript == out.value.finalTranscript)
      && (out.Ok? ==> r.value.postProcessingStatus == out.value.postProcessingStatus)
      && (out.Ok? ==> FromModelTokenUsage(r.value.postProcessingUsage) == out.value.postProcessingUsage)
  {
    match upload
    case Err(e) => Err(MultipartFailure(e, maxUploadBytes))
    case Ok(u) =>
      match ParseOptionalBool(u.form("include_debug"))
      case None => Err(InvalidIncludeDebug)
      case Some(includeDebug) =>
        match process(PipelineInputOf(u, includeDebug))
        case Err(e) => Err(MapError(e))
        case Ok(result) =>
          TokenUsageRoundTrip(result.postProcessingUsage, None);
          Ok(Api.PipelineProcessResponse(
            result.rawTranscript, result.finalTranscript, result.postProcessingStatus,
            ToModelTokenUsage(result.postProcessingUsage)))
  }

  /** End to end: a pipeline whose post-processing fails still answers 200,
      with the raw transcript as the final one and the fallback status. */
  lemma PipelineFallbackIsStillOk(
    u: Upload, maxUploadBytes: int, s: Pipeline.Service,
    transcriber: (string, string) -> Outcome<string>,
    postProcessor: PostProcess.Input -> Outcome<PostProcess.Result>)
    requires ParseOptionalBool(u.form("include_debug")).Some?
    requires var input := PipelineInputOf(u, ParseOptionalBool(u.form("include_debug")).value);
      && Pipeline.Transcription(s, input, transcriber).Ok?
      && postProcessor(Pipeline.PostProcessInput(s, input,
           Text.TrimSpace(Pipeline.Transcription(s, input, transcriber).value))).Err?
    ensures var r := HandlePipelineProcess(Ok(u), maxUploadBytes, i => Pipeline.Process(s, i, transcriber, postProcessor));
      && r.Ok?
      && r.value.finalTranscript == r.value.rawTranscript
      && r.value.postProcessingStatus == Pipeline.FellBack
      && r.value.postProcessingUsage.None?
  {
  }
}
