/** The request builder of request.go. A request keeps two header stores:
    a staged map (exact keys, last write wins) that only `Do` copies to the
    transport, and the transport request's own multi-valued header map,
    which the body options write immediately. */
module Requests {
  import opened Wrappers
  import opened HttpHeader
  import Responses

  datatype HttpMethod = GET | POST | PUT | PATCH | DELETE

  type FormData = map<string, string>

  /** The request body. The form encoder is opaque: `FormEncoded(d)` stands
      for the `application/x-www-form-urlencoded` encoding of `d`. */
  datatype Body = FormEncoded(form: FormData) | Raw(content: string)

  /** A cancellation/deadline context; `Background` is the one net/http
      attaches to a new request. */
  datatype Context = Background | Supplied(id: nat)

  /** The transport request (net/http's `Request`) as the builder sees it. */
  datatype TransportRequest = TransportRequest(
    verb: HttpMethod,
    url: string,
    header: Header,
    body: Option<Body>,
    ctx: Context)

  /** The builder state: the fields of request.go's `request` struct. */
  datatype Request = Request(
    targetUrl: string,
    verb: HttpMethod,
    data: FormData,
    withData: bool,
    jsonStr: string,
    withJson: bool,
    ctx: Option<Context>,
    withContext: bool,
    headers: map<string, string>,
    withHeaders: bool,
    transport: TransportRequest)

  /** A configuration item, applicable at construction or by chaining. */
  datatype RequestOption =
    | WithData(data: FormData)
    | WithJson(jsonStr: string)
    | WithHeaders(headers: map<string, string>)
    | WithContext(ctx: Context)
    | WithBearerToken(token: string)

  /** What the transport does with the dispatched request. */
  datatype TransportOutcome =
    | TransportFailed(reason: string)
    | Delivered(raw: Responses.RawResponse)

  const ContentType := "Content-Type"
  const FormMediaType := "application/x-www-form-urlencoded"
  const JsonMediaType := "application/json"
  const Authorization := "Authorization"
  const BearerPrefix := "Bearer "
  const CreateErrorPrefix := "failed to create http request: "
  const DoErrorPrefix := "failed to do http request: "

  /** The builder state right after net/http has built the transport
      request: no body, no headers, the background context, no flags. */
  function Initial(targetUrl: string, httpMethod: HttpMethod): (r: Request)
    ensures r.targetUrl == targetUrl && r.verb == httpMethod
    ensures r.transport.url == targetUrl && r.transport.verb == httpMethod
    ensures r.transport.header == map[] && r.transport.body == None
    ensures r.headers == map[] && r.ctx == None
    ensures r.transport.ctx == Background
    ensures r.data == map[] && r.jsonStr == ""
    ensures !r.withData && !r.withJson && !r.withHeaders && !r.withContext
  {
    Request(targetUrl, httpMethod, map[], false, "", false, None, false, map[], false,
            TransportRequest(httpMethod, targetUrl, map[], None, Background))
  }

  /** The `WithData` option: the body becomes the form encoding of `data`
      and `Content-Type` is set, discarding any earlier values. */
  function ApplyData(r: Request, data: FormData): (r': Request)
    ensures r'.transport.body == Some(FormEncoded(data))
    ensures Values(r'.transport.header, ContentType) == [FormMediaType]
    ensures AgreeExcept(r.transport.header, r'.transport.header, ContentType)
    ensures r'.withData && r'.data == data
    ensures r'.(data := r.data, withData := r.withData, transport := r.transport) == r
    ensures r'.transport.(body := r.transport.body, header := r.transport.header) == r.transport
  {
    var t := r.transport.(body := Some(FormEncoded(data)));
    r.(data := data, withData := true,
       transport := t.(header := Set(t.header, ContentType, FormMediaType)))
  }

  /** The `WithJson` option: `application/json` is appended to the existing
      `Content-Type` values and the body becomes the bytes of `jsonStr`. */
  function ApplyJson(r: Request, jsonStr: string): (r': Request)
    ensures r'.transport.body == Some(Raw(jsonStr))
    ensures Values(r'.transport.header, ContentType)
         == Values(r.transport.header, ContentType) + [JsonMediaType]
    ensures AgreeExcept(r.transport.header, r'.transport.header, ContentType)
    ensures r'.withJson && r'.jsonStr == jsonStr
    ensures r'.(jsonStr := r.jsonStr, withJson := r.withJson, transport := r.transport) == r
    ensures r'.transport.(body := r.transport.body, header := r.transport.header) == r.transport
  {
    var t := r.transport.(header := Add(r.transport.header, ContentType, JsonMediaType));
    r.(jsonStr := jsonStr, withJson := true, transport := t.(body := Some(Raw(jsonStr))))
  }

  /** `AddHeader`: stages one header; the transport request is untouched. */
  function AddHeader(r: Request, k: string, v: string): (r': Request)
    ensures k in r'.headers && r'.headers[k] == v
    ensures forall j :: j in r.headers && j != k ==> j in r'.headers && r'.headers[j] == r.headers[j]
    ensures r'.headers.Keys == r.headers.Keys + {k}
    ensures r'.withHeaders
    ensures r'.(headers := r.headers, withHeaders := r.withHeaders) == r
  {
    r.(headers := r.headers[k := v], withHeaders := true)
  }

  /** `AddHeaders` (and the `WithHeaders` option): the staged map becomes
      the old one overridden by `hs`. The transport request is untouched. */
  function AddHeaders(r: Request, hs: map<string, string>): (r': Request)
    ensures r'.headers.Keys == r.headers.Keys + hs.Keys
    ensures forall k :: k in hs ==> r'.headers[k] == hs[k]
    ensures forall k :: k in r.headers && k !in hs ==> r'.headers[k] == r.headers[k]
    ensures r'.withHeaders
    ensures r'.(headers := r.headers, withHeaders := r.withHeaders) == r
  {
    r.(headers := r.headers + hs, withHeaders := true)
  }

  /** The `WithContext` option: only the attached context changes. */
  function ApplyContext(r: Request, ctx: Context): (r': Request)
    ensures r'.ctx == Some(ctx) && r'.withContext && r'.transport.ctx == ctx
    ensures r'.(ctx := r.ctx, withContext := r.withContext,
                transport := r'.transport.(ctx := r.transport.ctx)) == r
  {
    r.(ctx := Some(ctx), withContext := true, transport := r.transport.(ctx := ctx))
  }

  /** The `WithBearerToken` option: stages `Authorization: Bearer <token>`. */
  function ApplyBearerToken(r: Request, token: string): (r': Request)
    ensures Authorization in r'.headers && r'.headers[Authorization] == BearerPrefix + token
    ensures forall j :: j in r.headers && j != Authorization ==> j in r'.headers && r'.headers[j] == r.headers[j]
    ensures r'.headers.Keys == r.headers.Keys + {Authorization}
    ensures r'.withHeaders
    ensures r'.(headers := r.headers, withHeaders := r.withHeaders) == r
  {
    AddHeader(r, Authorization, BearerPrefix + token)
  }

  /** Running an option on a request. No option changes the target or the
      method. */
  function Apply(opt: RequestOption, r: Request): (r': Request)
    ensures r'.targetUrl == r.targetUrl && r'.verb == r.verb
    ensures r'.transport.url == r.transport.url && r'.transport.verb == r.transport.verb
  {
    match opt
    case WithData(d) => ApplyData(r, d)
    case WithJson(s) => ApplyJson(r, s)
    case WithHeaders(hs) => AddHeaders(r, hs)
    case WithContext(c) => ApplyContext(r, c)
    case WithBearerToken(t) => ApplyBearerToken(r, t)
  }

  /** Runs the options one by one, first to last. */
  function ApplyAll(opts: seq<RequestOption>, r: Request): Request
  {
    if opts == [] then r else ApplyAll(opts[1..], Apply(opts[0], r))
  }

  /** Running `opts + [o]` is running `opts`, then `o`. */
  lemma {:induction false} ApplyAllSnoc(opts: seq<RequestOption>, o: RequestOption, r: Request)
    ensures ApplyAll(opts + [o], r) == Apply(o, ApplyAll(opts, r))
    decreases |opts|
  {
    if opts == [] {
      assert [o][1..] == [];
    } else {
      assert (opts + [o])[0] == opts[0];
      assert (opts + [o])[1..] == opts[1..] + [o];
      ApplyAllSnoc(opts[1..], o, Apply(opts[0], r));
    }
  }

  /** The chain methods: each one applies its option to the request and
      hands the request back. */
  function ChainWithData(r: Request, data: FormData): (r': Request)
    ensures r' == Apply(WithData(data), r)
    ensures r'.transport.body == Some(FormEncoded(data))
  {
    ApplyData(r, data)
  }

  function ChainWithJson(r: Request, jsonStr: string): (r': Request)
    ensures r' == Apply(WithJson(jsonStr), r)
    ensures r'.transport.body == Some(Raw(jsonStr))
  {
    ApplyJson(r, jsonStr)
  }

  function ChainWithHeaders(r: Request, hs: map<string, string>): (r': Request)
    ensures r' == Apply(WithHeaders(hs), r)
    ensures r'.transport == r.transport
  {
    AddHeaders(r, hs)
  }

  function ChainWithContext(r: Request, ctx: Context): (r': Request)
    ensures r' == Apply(WithContext(ctx), r)
    ensures r'.transport.ctx == ctx
  {
    ApplyContext(r, ctx)
  }

  function ChainWithBearerToken(r: Request, token: string): (r': Request)
    ensures r' == Apply(WithBearerToken(token), r)
    ensures r'.transport == r.transport
  {
    ApplyBearerToken(r, token)
  }

  /** `NewRequest`: fails with no request when net/http cannot build the
      transport request (`buildError`); otherwise returns a request for the
      given target and method with the options applied in argument order. */
  method NewRequest(targetUrl: string, httpMethod: HttpMethod, options: seq<RequestOption>,
                    buildError: Option<string>) returns (res: Result<Request>)
    ensures buildError.Some? ==> res == Err(CreateErrorPrefix + buildError.value)
    ensures buildError.None? ==> res.Ok? && res.value == ApplyAll(options, Initial(targetUrl, httpMethod))
    ensures res.Ok? ==> res.value.targetUrl == targetUrl && res.value.verb == httpMethod
  {
    if buildError.Some? {
      return Err(CreateErrorPrefix + buildError.value);
    }
    var r0 := Initial(targetUrl, httpMethod);
    var r := r0;
    for i := 0 to |options|
      invariant r == ApplyAll(options[..i], r0)
      invariant r.targetUrl == targetUrl && r.verb == httpMethod
    {
      ApplyAllSnoc(options[..i], options[i], r0);
      assert options[..i + 1] == options[..i] + [options[i]];
      r := Apply(options[i], r);
    }
    assert options[..|options|] == options;
    return Ok(r);
  }

  /** `Do`: when headers were staged, every staged header is added to the
      transport headers (existing values are kept); then the request is
      dispatched. A transport failure yields no response and a prefixed
      error; any delivered response is wrapped, whatever its status. The
      updated request is returned too, since the header map is changed in
      place and a later `Do` starts from it. */
  method Do(r: Request, outcome: TransportOutcome) returns (r': Request, res: Result<Responses.Response>)
    ensures r.withHeaders ==> AppendedEach(r.transport.header, r.headers, r'.transport.header)
    ensures !r.withHeaders ==> r'.transport.header == r.transport.header
    ensures r'.(transport := r.transport) == r
    ensures r'.transport.(header := r.transport.header) == r.transport
    ensures outcome.TransportFailed? ==> res == Err(DoErrorPrefix + outcome.reason)
    ensures outcome.Delivered? ==> res.Ok? && res.value.statusCode == outcome.raw.statusCode
                                   && res.value.body == outcome.raw.body
  {
    r' := r;
    if r.withHeaders {
      var h := AddEach(r.transport.header, r.headers);
      r' := r.(transport := r.transport.(header := h));
    }
    match outcome
    case TransportFailed(reason) =>
      res := Err(DoErrorPrefix + reason);
    case Delivered(raw) =>
      res := Ok(Responses.NewResponse(raw));
  }
}
