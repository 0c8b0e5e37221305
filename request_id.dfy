/**
 * The request-id policy engine (orion-tracing/src/request_id.rs).
 *
 * `RequestId` and the decision table of `RequestIdManager::apply_policy` are
 * values; the request and the response are objects whose header maps the
 * manager edits in place, as `headers_mut().insert` / `remove` do.
 */
module RequestIds {
  import opened Wrappers

  type HeaderName = string
  type HeaderValue = string

  /** An HTTP header map, one value per name. */
  type HeaderMap = map<HeaderName, HeaderValue>

  /** The canonical name of the correlation header. */
  const XRequestId: HeaderName := "x-request-id"

  /** The string `generate_new_id` falls back to when formatting fails. */
  const UnknownRequestId: HeaderValue := "unknown-request-id"

  const LowerHexDigits: set<char> := {'0', '1', '2', '3', '4', '5', '6', '7', '8', '9', 'a', 'b', 'c', 'd', 'e', 'f'}

  /**
   * The values `generate_new_id` can return: a v4 UUID in its simple form
   * (32 lower-case hex digits, no hyphens) or the fixed fallback.
   */
  predicate IsGeneratedId(g: HeaderValue) {
    (|g| == 32 && forall i :: 0 <= i < |g| ==> g[i] in LowerHexDigits) || g == UnknownRequestId
  }

  /** An HTTP request; only its header map and its body matter here. */
  class Request<B> {
    var headers: HeaderMap
    var body: B

    constructor (headers: HeaderMap, body: B)
      ensures this.headers == headers && this.body == body
    {
      this.headers := headers;
      this.body := body;
    }
  }

  /** An HTTP response; only its header map and its body matter here. */
  class Response<B> {
    var headers: HeaderMap
    var body: B

    constructor (headers: HeaderMap, body: B)
      ensures this.headers == headers && this.body == body
    {
      this.headers := headers;
      this.body := body;
    }
  }

  /**
   * A correlation id: forwarded on the wire (`Propagate`) or kept for
   * in-process correlation only (`Internal`).
   */
  datatype RequestId = Propagate(value: HeaderValue) | Internal(value: HeaderValue) {

    /** The carried header value, whatever the variant. */
    function AsRef(): (r: HeaderValue)
      ensures this == Propagate(r) || this == Internal(r)
    {
      match this
      case Propagate(id) => id
      case Internal(id) => id
    }

    /** A copy of the carried header value, whatever the variant. */
    function ToValue(): (r: HeaderValue)
      ensures this == Propagate(r) || this == Internal(r)
      ensures r == AsRef()
    {
      match this
      case Propagate(id) => id
      case Internal(id) => id
    }

    /** The carried value, only for an id that is forwarded on the wire. */
    function PropagateRef(): (r: Option<HeaderValue>)
      ensures r.Some? <==> Propagate?
      ensures r.Some? ==> r.value == AsRef()
    {
      match this
      case Propagate(id) => Some(id)
      case Internal(_) => None
    }

    /** The carried value, only for an id that stays inside the proxy. */
    function InternalRef(): (r: Option<HeaderValue>)
      ensures r.Some? <==> Internal?
      ensures r.Some? ==> r.value == AsRef()
    {
      match this
      case Internal(id) => Some(id)
      case Propagate(_) => None
    }

    /**
     * Reads the incoming id off a request. `isUuid` says whether a header
     * value is visible ASCII that `Uuid::parse_str` accepts; a value that
     * fails it, an empty value and a missing header all give `None`.
     */
    static function FromRequest<B>(req: Request<B>, isUuid: HeaderValue -> bool): (r: Option<RequestId>)
      reads req
      ensures r.None? <==>
                XRequestId !in req.headers || !isUuid(req.headers[XRequestId]) || req.headers[XRequestId] == ""
      ensures r.Some? ==> r.value == Propagate(req.headers[XRequestId])
    {
      var value := if XRequestId in req.headers && isUuid(req.headers[XRequestId])
                   then Some(req.headers[XRequestId]) else None;
      match value
      case None => None
      case Some(id) => if id == "" then None else Some(Propagate(id))
    }
  }

  /** What `apply_policy` does to the outbound request's header map. */
  datatype HeaderEdit = InsertHeader(value: HeaderValue) | RemoveHeader | KeepHeader

  /** Applies an edit; only the `x-request-id` entry may change. */
  function ApplyEdit(h: HeaderMap, e: HeaderEdit): (r: HeaderMap)
    ensures forall k :: k != XRequestId ==> (k in r <==> k in h) && (k in r ==> r[k] == h[k])
    ensures e.InsertHeader? ==> XRequestId in r && r[XRequestId] == e.value
    ensures e.RemoveHeader? ==> XRequestId !in r
    ensures e.KeepHeader? ==> r == h
  {
    match e
    case InsertHeader(v) => h[XRequestId := v]
    case RemoveHeader => h - {XRequestId}
    case KeepHeader => h
  }

  /** The outcome of the decision table of `apply_policy`, step by step. */
  datatype Decision = Decision(
    authoritative: Option<HeaderValue>,
    isGenerated: bool,
    shouldPropagate: bool,
    edit: HeaderEdit,
    requestId: Option<RequestId>)

  /** The immutable configuration `RequestIdManager::new` builds. */
  datatype RequestIdManager = RequestIdManager(
    generateRequestId: bool,
    preserveExternalRequestId: bool,
    alwaysSetRequestIdInResponse: bool)
  {
    /** An incoming id exists and the configuration keeps it. */
    predicate Preserves(incoming: Option<RequestId>) {
      incoming.Some? && preserveExternalRequestId
    }

    /**
     * The decision table of `apply_policy`. `tracing` is the build-time
     * `tracing` feature and `generated` the id `generate_new_id` would return.
     */
    function Decide(incoming: Option<RequestId>, accessLogEnabled: bool, tracing: bool, generated: HeaderValue): (d: Decision)
      // a preserved incoming id is forwarded as it is and the header is left alone
      ensures Preserves(incoming) ==>
                d.edit == KeepHeader && !d.isGenerated && d.requestId == Some(Propagate(incoming.value.AsRef()))
      // otherwise `generate` overwrites the header with the fresh id and forwards it
      ensures !Preserves(incoming) && generateRequestId ==>
                d.isGenerated && d.edit == InsertHeader(generated) && d.requestId == Some(Propagate(generated))
      // with neither, the header goes exactly when an incoming id was supplied
      ensures !Preserves(incoming) && !generateRequestId ==>
                d.edit == (if incoming.Some? then RemoveHeader else KeepHeader)
      ensures d.shouldPropagate <==> Preserves(incoming) || generateRequestId
      ensures d.requestId.Some? <==> d.authoritative.Some?
      ensures d.requestId.Some? ==>
                d.requestId.value.AsRef() == d.authoritative.value &&
                (d.requestId.value.Propagate? <==> d.shouldPropagate)
      // any id that is not the preserved incoming one is the generated one
      ensures !Preserves(incoming) && d.authoritative.Some? ==> d.authoritative.value == generated
      ensures d.isGenerated <==> !Preserves(incoming) && (generateRequestId || tracing)
      // with the tracing feature there is always an id
      ensures tracing ==> d.requestId.Some?
      ensures !tracing ==>
                (d.requestId.None? <==> !Preserves(incoming) && !generateRequestId && !accessLogEnabled)
      // an internal id never reaches the wire
      ensures d.edit.InsertHeader? ==> d.requestId == Some(Propagate(d.edit.value))
    {
      var (authoritative, isGenerated) :=
        if Preserves(incoming) then (Some(incoming.value.ToValue()), false)
        else if generateRequestId then (Some(generated), true)
        else if tracing then (Some(generated), true)
        else if accessLogEnabled then (Some(generated), false)
        else (None, false);
      var shouldPropagate := Preserves(incoming) || generateRequestId;
      var edit :=
        if shouldPropagate then
          (if isGenerated && authoritative.Some? then InsertHeader(authoritative.value) else KeepHeader)
        else if incoming.Some? then RemoveHeader
        else KeepHeader;
      var requestId :=
        match authoritative
        case None => None
        case Some(id) => if shouldPropagate then Some(Propagate(id)) else Some(Internal(id));
      Decision(authoritative, isGenerated, shouldPropagate, edit, requestId)
    }

    /**
     * `apply_policy`: edits the request's headers in place and returns the
     * resulting id. The request object itself stands for the returned request.
     */
    method ApplyPolicy<B>(req: Request<B>, accessLogEnabled: bool, incoming: Option<RequestId>,
                          tracing: bool, generated: HeaderValue)
      returns (reqId: Option<RequestId>)
      modifies req
      ensures req.body == old(req.body)
      ensures req.headers == ApplyEdit(old(req.headers), Decide(incoming, accessLogEnabled, tracing, generated).edit)
      ensures reqId == Decide(incoming, accessLogEnabled, tracing, generated).requestId
    {
      var d := Decide(incoming, accessLogEnabled, tracing, generated);
      req.headers := ApplyEdit(req.headers, d.edit);
      reqId := d.requestId;
    }

    /** `apply_to`: stamps the id onto the response when so configured. */
    method ApplyTo<B>(resp: Response<B>, reqId: Option<HeaderValue>)
      modifies resp
      ensures resp.body == old(resp.body)
      ensures alwaysSetRequestIdInResponse && reqId.Some? ==>
                resp.headers == old(resp.headers)[XRequestId := reqId.value]
      ensures !(alwaysSetRequestIdInResponse && reqId.Some?) ==> resp.headers == old(resp.headers)
    {
      if alwaysSetRequestIdInResponse {
        if reqId.Some? {
          resp.headers := resp.headers[XRequestId := reqId.value];
        }
      }
    }
  }

  /** The well-formed id the unit tests send. */
  const SampleId: HeaderValue := "123e4567-e89b-12d3-a456-426614174000"

  /** The malformed id the unit tests send. */
  const BrokenId: HeaderValue := "123e4567-invalid-614174"

  /** A generated id is never a hyphenated 36-character UUID. */
  lemma GeneratedIdIsNotHyphenated(g: HeaderValue, v: HeaderValue)
    requires IsGeneratedId(g) && |v| == 36
    ensures g != v
  {
  }

  /** A malformed incoming value yields no incoming id, just as a missing header does. */
  lemma MalformedIsAbsent<B>(req: Request<B>, isUuid: HeaderValue -> bool)
    requires XRequestId in req.headers && !isUuid(req.headers[XRequestId])
    ensures RequestId.FromRequest(req, isUuid).None?
  {
  }

  /**
   * Where a malformed header and a valid one part ways: with `generate` and
   * `preserve` both off, a valid incoming id is stripped from the outbound
   * request, but a malformed value is not an incoming id at all and so stays.
   */
  lemma MalformedHeaderIsForwarded<B>(m: RequestIdManager, req: Request<B>, isUuid: HeaderValue -> bool,
                                      accessLogEnabled: bool, tracing: bool, generated: HeaderValue)
    requires !m.generateRequestId && !m.preserveExternalRequestId
    requires XRequestId in req.headers
    ensures var d := m.Decide(RequestId.FromRequest(req, isUuid), accessLogEnabled, tracing, generated);
            var out := ApplyEdit(req.headers, d.edit);
            (!isUuid(req.headers[XRequestId]) ==> XRequestId in out && out[XRequestId] == req.headers[XRequestId]) &&
            (isUuid(req.headers[XRequestId]) && req.headers[XRequestId] != "" ==> XRequestId !in out)
  {
  }

  /**
   * The scenarios of the unit tests of request_id.rs, checked by the
   * verifier against the model for every outcome of the UUID parser that accepts the sample id and
   * rejects the broken one, every generated id, and both builds.
   */
  method PolicyScenarios(isUuid: HeaderValue -> bool, generated: HeaderValue, tracing: bool)
    requires isUuid(SampleId) && !isUuid(BrokenId) && IsGeneratedId(generated)
  {
    // from_request
    var withId := new Request<()>(map[XRequestId := SampleId], ());
    var broken := new Request<()>(map[XRequestId := BrokenId], ());
    var bare := new Request<()>(map[], ());
    assert RequestId.FromRequest(withId, isUuid) == Some(Propagate(SampleId));
    assert RequestId.FromRequest(broken, isUuid) == None;
    assert RequestId.FromRequest(bare, isUuid) == None;

    var accessLogEnabled := false;

    // generate = false, preserve = false, no incoming header
    var m := RequestIdManager(false, false, false);
    var req := new Request<()>(map[], ());
    var id := m.ApplyPolicy(req, accessLogEnabled, None, tracing, generated);
    assert XRequestId !in req.headers;
    assert tracing ==> id.Some? && id.value.Internal?;
    assert !tracing ==> id.None?;

    // generate = false, preserve = false, incoming header
    req := new Request<()>(map[XRequestId := SampleId], ());
    var incoming := RequestId.FromRequest(req, isUuid);
    id := m.ApplyPolicy(req, accessLogEnabled, incoming, tracing, generated);
    assert XRequestId !in req.headers;
    assert tracing ==> id.Some? && id.value.Internal?;
    assert !tracing ==> id.None?;

    // generate = true, preserve = false, incoming header
    m := RequestIdManager(true, false, false);
    req := new Request<()>(map[XRequestId := SampleId], ());
    incoming := RequestId.FromRequest(req, isUuid);
    id := m.ApplyPolicy(req, accessLogEnabled, incoming, tracing, generated);
    assert XRequestId in req.headers;
    assert id.Some? && id.value.Propagate?;
    GeneratedIdIsNotHyphenated(generated, SampleId);
    assert req.headers[XRequestId] != SampleId;

    // generate = true, preserve = true, no incoming header
    m := RequestIdManager(true, true, false);
    req := new Request<()>(map[], ());
    incoming := RequestId.FromRequest(req, isUuid);
    id := m.ApplyPolicy(req, accessLogEnabled, incoming, tracing, generated);
    assert XRequestId in req.headers;
    assert id.Some? && id.value.Propagate?;

    // generate = true, preserve = true, incoming header
    req := new Request<()>(map[XRequestId := SampleId], ());
    incoming := RequestId.FromRequest(req, isUuid);
    id := m.ApplyPolicy(req, accessLogEnabled, incoming, tracing, generated);
    assert XRequestId in req.headers && req.headers[XRequestId] == SampleId;
    assert id == Some(Propagate(SampleId));

    // apply_to only stamps when so configured
    var resp := new Response<()>(map[], ());
    m.ApplyTo(resp, Some(SampleId));
    assert XRequestId !in resp.headers;
    m := RequestIdManager(false, false, true);
    m.ApplyTo(resp, Some(SampleId));
    assert resp.headers[XRequestId] == SampleId;
  }
}
