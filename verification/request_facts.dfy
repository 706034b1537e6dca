/** Properties of sequences of builder calls: which mutator decides the
    body and the `Content-Type` values, how staged headers merge, and why
    chaining after construction equals passing the option to `NewRequest`. */
module RequestFacts {
  import opened Wrappers
  import opened HttpHeader
  import opened Requests

  /** Reference definition: the body left by `opts` is the one the last
      body-producing option sets, or the starting body if there is none. */
  function LastBody(opts: seq<RequestOption>, start: Option<Body>): Option<Body>
  {
    if opts == [] then start
    else match opts[|opts| - 1]
      case WithData(d) => Some(FormEncoded(d))
      case WithJson(s) => Some(Raw(s))
      case _ => LastBody(opts[..|opts| - 1], start)
  }

  /** Reference definition of the `Content-Type` values left by `opts`: a
      form option resets them to the form media type, each JSON option
      appends the JSON media type, and nothing else touches them. */
  function ContentTypesAfter(opts: seq<RequestOption>, start: seq<string>): seq<string>
  {
    if opts == [] then start
    else match opts[|opts| - 1]
      case WithData(_) => [FormMediaType]
      case WithJson(_) => ContentTypesAfter(opts[..|opts| - 1], start) + [JsonMediaType]
      case _ => ContentTypesAfter(opts[..|opts| - 1], start)
  }

  /** Reference definition of the staged headers left by `opts`: each
      header map overrides what came before, and each bearer token
      overrides `Authorization`. */
  function StagedAfter(opts: seq<RequestOption>, start: map<string, string>): map<string, string>
  {
    if opts == [] then start
    else match opts[|opts| - 1]
      case WithHeaders(hs) => StagedAfter(opts[..|opts| - 1], start) + hs
      case WithBearerToken(t) => StagedAfter(opts[..|opts| - 1], start)[Authorization := BearerPrefix + t]
      case _ => StagedAfter(opts[..|opts| - 1], start)
  }

  /** Reference definition of the context left by `opts`: the one the last
      context option attaches, or the starting one if there is none. */
  function LastContext(opts: seq<RequestOption>, start: Context): Context
  {
    if opts == [] then start
    else match opts[|opts| - 1]
      case WithContext(c) => c
      case _ => LastContext(opts[..|opts| - 1], start)
  }

  /** Whether some option of `opts` stages headers. */
  predicate StagesHeaders(opts: seq<RequestOption>)
  {
    exists i :: 0 <= i < |opts| && (opts[i].WithHeaders? || opts[i].WithBearerToken?)
  }

  /** Splits a non-empty option list into its last option and the rest. */
  lemma {:induction false} SplitLast(opts: seq<RequestOption>, r: Request)
    requires opts != []
    ensures ApplyAll(opts, r) == Apply(opts[|opts| - 1], ApplyAll(opts[..|opts| - 1], r))
  {
    var init := opts[..|opts| - 1];
    assert opts == init + [opts[|opts| - 1]];
    ApplyAllSnoc(init, opts[|opts| - 1], r);
  }

  /** One option's effect on the body. */
  lemma BodyStep(o: RequestOption, m: Request)
    ensures Apply(o, m).transport.body == match o
      case WithData(d) => Some(FormEncoded(d))
      case WithJson(s) => Some(Raw(s))
      case _ => m.transport.body
  {
    match o
    case WithData(d) =>
    case WithJson(s) =>
    case WithHeaders(hs) =>
    case WithContext(c) =>
    case WithBearerToken(t) =>
  }

  /** The body always comes from the last-applied body option; earlier
      payloads are discarded, never merged. */
  lemma {:induction false} LastBodyWins(opts: seq<RequestOption>, r: Request)
    ensures ApplyAll(opts, r).transport.body == LastBody(opts, r.transport.body)
    decreases |opts|
  {
    if opts != [] {
      var init, last := opts[..|opts| - 1], opts[|opts| - 1];
      SplitLast(opts, r);
      LastBodyWins(init, r);
      BodyStep(last, ApplyAll(init, r));
    }
  }

  /** One option's effect on the `Content-Type` values. */
  lemma ContentTypesStep(o: RequestOption, m: Request)
    ensures Values(Apply(o, m).transport.header, ContentType) == match o
      case WithData(_) => [FormMediaType]
      case WithJson(_) => Values(m.transport.header, ContentType) + [JsonMediaType]
      case _ => Values(m.transport.header, ContentType)
  {
    match o
    case WithData(d) =>
    case WithJson(s) =>
    case WithHeaders(hs) =>
    case WithContext(c) =>
    case WithBearerToken(t) =>
  }

  /** The `Content-Type` values follow `ContentTypesAfter`: form data
      replaces them, JSON appends to them. */
  lemma {:induction false} ContentTypesFollowOptions(opts: seq<RequestOption>, r: Request)
    ensures Values(ApplyAll(opts, r).transport.header, ContentType)
         == ContentTypesAfter(opts, Values(r.transport.header, ContentType))
    decreases |opts|
  {
    if opts != [] {
      var init, last := opts[..|opts| - 1], opts[|opts| - 1];
      SplitLast(opts, r);
      ContentTypesFollowOptions(init, r);
      ContentTypesStep(last, ApplyAll(init, r));
    }
  }

  /** One option's effect on the staged headers. */
  lemma StagedStep(o: RequestOption, m: Request)
    ensures Apply(o, m).headers == match o
      case WithHeaders(hs) => m.headers + hs
      case WithBearerToken(t) => m.headers[Authorization := BearerPrefix + t]
      case _ => m.headers
    ensures Apply(o, m).withHeaders == (m.withHeaders || o.WithHeaders? || o.WithBearerToken?)
  {
    match o
    case WithData(d) =>
    case WithJson(s) =>
    case WithHeaders(hs) =>
    case WithContext(c) =>
    case WithBearerToken(t) =>
  }

  /** Staged headers follow `StagedAfter`. */
  lemma {:induction false} StagedHeadersFollowOptions(opts: seq<RequestOption>, r: Request)
    ensures ApplyAll(opts, r).headers == StagedAfter(opts, r.headers)
    decreases |opts|
  {
    if opts != [] {
      var init, last := opts[..|opts| - 1], opts[|opts| - 1];
      SplitLast(opts, r);
      StagedHeadersFollowOptions(init, r);
      StagedStep(last, ApplyAll(init, r));
    }
  }

  /** One option's effect on the attached context. */
  lemma ContextStep(o: RequestOption, m: Request)
    ensures Apply(o, m).transport.ctx == match o
      case WithContext(c) => c
      case _ => m.transport.ctx
  {
    match o
    case WithData(d) =>
    case WithJson(s) =>
    case WithHeaders(hs) =>
    case WithContext(c) =>
    case WithBearerToken(t) =>
  }

  /** The transport request carries the context of the last context option;
      no other option replaces it. */
  lemma {:induction false} LastContextWins(opts: seq<RequestOption>, r: Request)
    ensures ApplyAll(opts, r).transport.ctx == LastContext(opts, r.transport.ctx)
    decreases |opts|
  {
    if opts != [] {
      var init, last := opts[..|opts| - 1], opts[|opts| - 1];
      SplitLast(opts, r);
      LastContextWins(init, r);
      ContextStep(last, ApplyAll(init, r));
    }
  }

  /** Whether `opts` stages headers, split at its last option. */
  lemma StagesHeadersSplit(opts: seq<RequestOption>)
    requires opts != []
    ensures StagesHeaders(opts)
        <==> (StagesHeaders(opts[..|opts| - 1])
              || opts[|opts| - 1].WithHeaders? || opts[|opts| - 1].WithBearerToken?)
  {
    var init, last := opts[..|opts| - 1], opts[|opts| - 1];
    if StagesHeaders(init) {
      var i :| 0 <= i < |init| && (init[i].WithHeaders? || init[i].WithBearerToken?);
      assert opts[i] == init[i];
    }
    if StagesHeaders(opts) && !last.WithHeaders? && !last.WithBearerToken? {
      var i :| 0 <= i < |opts| && (opts[i].WithHeaders? || opts[i].WithBearerToken?);
      assert init[i] == opts[i];
    }
  }

  /** The `withHeaders` flag is raised exactly when it already was or some
      option staged headers. */
  lemma {:induction false} HeadersFlagFollowsOptions(opts: seq<RequestOption>, r: Request)
    ensures ApplyAll(opts, r).withHeaders <==> r.withHeaders || StagesHeaders(opts)
    decreases |opts|
  {
    if opts != [] {
      var init, last := opts[..|opts| - 1], opts[|opts| - 1];
      SplitLast(opts, r);
      HeadersFlagFollowsOptions(init, r);
      StagedStep(last, ApplyAll(init, r));
      StagesHeadersSplit(opts);
    }
  }

  /** One option leaves every transport header but `Content-Type` alone. */
  lemma HeaderStep(o: RequestOption, m: Request)
    ensures AgreeExcept(m.transport.header, Apply(o, m).transport.header, ContentType)
  {
    match o
    case WithData(d) =>
    case WithJson(s) =>
    case WithHeaders(hs) =>
    case WithContext(c) =>
    case WithBearerToken(t) =>
  }

  /** Before `Do`, options write no transport header other than
      `Content-Type`: staged headers stay staged. */
  lemma {:induction false} OnlyContentTypeWritten(opts: seq<RequestOption>, r: Request)
    ensures AgreeExcept(r.transport.header, ApplyAll(opts, r).transport.header, ContentType)
    decreases |opts|
  {
    if opts != [] {
      var init, last := opts[..|opts| - 1], opts[|opts| - 1];
      SplitLast(opts, r);
      OnlyContentTypeWritten(init, r);
      HeaderStep(last, ApplyAll(init, r));
    }
  }

  /** A JSON body applied after a form body (or the reverse) leaves only
      the later payload. */
  lemma BodyReplacedNotMerged(r: Request, d: FormData, s: string)
    ensures Apply(WithJson(s), Apply(WithData(d), r)).transport.body == Some(Raw(s))
    ensures Apply(WithData(d), Apply(WithJson(s), r)).transport.body == Some(FormEncoded(d))
    ensures Values(Apply(WithJson(s), Apply(WithData(d), r)).transport.header, ContentType)
         == [FormMediaType, JsonMediaType]
    ensures Values(Apply(WithData(d), Apply(WithJson(s), r)).transport.header, ContentType)
         == [FormMediaType]
  {
  }

  /** Two `WithHeaders` calls stage the union of both maps, the second
      map's values winning on a shared key. */
  lemma HeadersMergeLastWins(r: Request, h1: map<string, string>, h2: map<string, string>)
    ensures Apply(WithHeaders(h2), Apply(WithHeaders(h1), r)).headers == r.headers + h1 + h2
    ensures Apply(WithHeaders(h2), Apply(WithHeaders(h1), r)).transport == r.transport
  {
  }

  /** A second bearer token replaces the first; other staged keys stay. */
  lemma BearerTokenLastWins(r: Request, t1: string, t2: string)
    ensures Apply(WithBearerToken(t2), Apply(WithBearerToken(t1), r)).headers
         == r.headers[Authorization := BearerPrefix + t2]
  {
  }

  /** The chain method for an option. */
  function Chain(r: Request, o: RequestOption): Request
  {
    match o
    case WithData(d) => ChainWithData(r, d)
    case WithJson(s) => ChainWithJson(r, s)
    case WithHeaders(hs) => ChainWithHeaders(r, hs)
    case WithContext(c) => ChainWithContext(r, c)
    case WithBearerToken(t) => ChainWithBearerToken(r, t)
  }

  /** Chaining `o` onto the request built from `opts` gives the request
      that `NewRequest` builds from `opts` followed by `o`. */
  lemma ChainAfterConstruction(targetUrl: string, httpMethod: HttpMethod,
                               opts: seq<RequestOption>, o: RequestOption)
    ensures Chain(ApplyAll(opts, Initial(targetUrl, httpMethod)), o)
         == ApplyAll(opts + [o], Initial(targetUrl, httpMethod))
  {
    ApplyAllSnoc(opts, o, Initial(targetUrl, httpMethod));
  }
}
