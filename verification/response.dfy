/** The response wrapper of response.go: a status code and a body stream
    that can be read once. Every body accessor goes through `GetBody`, so a
    response offers its payload to exactly one accessor. */
module Responses {
  import opened Wrappers

  newtype byte = x: int | 0 <= x < 256

  /** What a read returns once the body has been closed. This is decided by
      the transport, not by the wrapper: a net/http HTTP/1 body with content
      fails (`http: read on closed response body`), an HTTP/2 body fails
      with its own message, and an empty body (`http.NoBody`: length 0, a
      204 or 304 status, a HEAD request) keeps reporting end of stream,
      which `io.ReadAll` turns into no bytes and no error. */
  datatype AfterClose = FailsWith(error: string) | ReadsEmpty

  /** The transport's response body. `Open` still holds its bytes; a read of
      it either yields them all or fails with `readError`. Once `Closed`, a
      read behaves as `afterClose` says. */
  datatype BodyStream =
    | Open(content: seq<byte>, readError: Option<string>, afterClose: AfterClose)
    | Closed(afterClose: AfterClose)

  /** A response as the transport delivers it (net/http's `Response`). */
  datatype RawResponse = RawResponse(statusCode: int, body: BodyStream)

  /** The wrapper returned to callers. */
  datatype Response = Response(statusCode: int, body: BodyStream)

  /** A body accessor's result together with the response state it leaves. */
  datatype Accessed<+T> = Accessed(after: Response, result: Result<T>)

  const UnmarshalPrefix := "unmarshal: "

  /** Wraps the transport response without reading or closing its body. */
  function NewResponse(raw: RawResponse): (r: Response)
    ensures r.statusCode == raw.statusCode
    ensures r.body == raw.body
  {
    Response(raw.statusCode, raw.body)
  }

  /** The status code of the wrapped transport response. It returns no new
      response state, so it cannot consume the body. */
  function GetStatusCode(r: Response): (s: int)
    ensures r == NewResponse(RawResponse(s, r.body))
  {
    r.statusCode
  }

  /** What a read of a closed body returns. */
  function ClosedRead(c: AfterClose): Result<seq<byte>>
  {
    match c
    case FailsWith(e) => Err(e)
    case ReadsEmpty => Ok([])
  }

  /** `io.ReadAll` on the stream: on success, every remaining byte of an
      open stream and nothing from a closed one; otherwise the read error. */
  function ReadAll(s: BodyStream): (r: Result<seq<byte>>)
    ensures r.Ok? ==> r.value == (if s.Open? then s.content else [])
    ensures r.Err? <==> (s.Open? && s.readError.Some?) || (s.Closed? && s.afterClose.FailsWith?)
    ensures r.Err? ==> r.error == (if s.Open? then s.readError.value else s.afterClose.error)
  {
    match s
    case Closed(c) => ClosedRead(c)
    case Open(content, None, _) => Ok(content)
    case Open(_, Some(e), _) => Err(e)
  }

  /** Reads the whole body and closes the stream, whether or not the read
      succeeded. A failed read returns no bytes. */
  function GetBody(r: Response): (a: Accessed<seq<byte>>)
    ensures a.after.body == Closed(r.body.afterClose)
    ensures a.after.statusCode == r.statusCode
    ensures r.body.Open? && r.body.readError.None? ==> a.result == Ok(r.body.content)
    ensures r.body.Open? && r.body.readError.Some? ==> a.result == Err(r.body.readError.value)
    ensures r.body.Closed? ==> a.result == ClosedRead(r.body.afterClose)
  {
    Accessed(r.(body := Closed(r.body.afterClose)), ReadAll(r.body))
  }

  /** Decodes the body as a JSON object with `decode`. A read error is
      returned unchanged and no map is produced; otherwise the result is the
      decoder's verdict on exactly the bytes read. */
  function GetBodyMap<M>(r: Response, decode: seq<byte> -> Result<M>): (a: Accessed<M>)
    ensures a.after == GetBody(r).after
    ensures GetBody(r).result.Err? ==> a.result == Err(GetBody(r).result.error)
    ensures GetBody(r).result.Ok? ==> a.result == decode(GetBody(r).result.value)
  {
    var read := GetBody(r);
    match read.result
    case Err(e) => Accessed(read.after, Err(e))
    case Ok(b) => Accessed(read.after, decode(b))
  }

  /** Decodes the body into a caller-chosen shape with `decode`. A read
      error comes back prefixed with `unmarshal: `; otherwise the result is
      the decoder's verdict on exactly the bytes read. */
  function Unmarshal<T>(r: Response, decode: seq<byte> -> Result<T>): (a: Accessed<T>)
    ensures a.after == GetBody(r).after
    ensures GetBody(r).result.Err? ==> a.result == Err(UnmarshalPrefix + GetBody(r).result.error)
    ensures GetBody(r).result.Ok? ==> a.result == decode(GetBody(r).result.value)
  {
    var read := GetBody(r);
    match read.result
    case Err(e) => Accessed(read.after, Err(UnmarshalPrefix + e))
    case Ok(b) => Accessed(read.after, decode(b))
  }

  /** The three body accessors, for stating facts about any of them. */
  datatype Accessor<!T> =
    | ReadBody
    | ReadBodyMap(decodeMap: seq<byte> -> Result<T>)
    | ReadInto(decodeInto: seq<byte> -> Result<T>)

  /** Runs one accessor and reports whether it succeeded and the state it leaves. */
  function Access<T>(r: Response, acc: Accessor<T>): (Response, bool)
  {
    match acc
    case ReadBody => var a := GetBody(r); (a.after, a.result.Ok?)
    case ReadBodyMap(d) => var a := GetBodyMap(r, d); (a.after, a.result.Ok?)
    case ReadInto(d) => var a := Unmarshal(r, d); (a.after, a.result.Ok?)
  }

  /** Every accessor closes the stream and keeps the status code. A second
      accessor of any kind then only sees what the closed body yields: an
      error, or no bytes at all. It never sees a non-empty payload again. */
  lemma ConsumedOnce<T, U>(r: Response, first: Accessor<T>, decodeMap: seq<byte> -> Result<U>,
                           decodeInto: seq<byte> -> Result<U>)
    ensures Access(r, first).0.body == Closed(r.body.afterClose)
    ensures GetStatusCode(Access(r, first).0) == GetStatusCode(r)
    ensures GetBody(Access(r, first).0).result == ClosedRead(r.body.afterClose)
    ensures r.body.Open? && r.body.content != [] ==> GetBody(Access(r, first).0).result != Ok(r.body.content)
    ensures GetBodyMap(Access(r, first).0, decodeMap).result
         == match r.body.afterClose
            case FailsWith(e) => Err(e)
            case ReadsEmpty => decodeMap([])
    ensures Unmarshal(Access(r, first).0, decodeInto).result
         == match r.body.afterClose
            case FailsWith(e) => Err(UnmarshalPrefix + e)
            case ReadsEmpty => decodeInto([])
  {
  }

  /** An empty response such as a bodiless 403 reads as no bytes every
      time, since its closed body keeps reporting end of stream. */
  lemma EmptyBodyReadsEmptyTwice(status: int)
    ensures GetBody(NewResponse(RawResponse(status, Open([], None, ReadsEmpty)))).result == Ok([])
    ensures GetBody(GetBody(NewResponse(RawResponse(status, Open([], None, ReadsEmpty)))).after).result == Ok([])
  {
  }

  /** A freshly wrapped response whose body reads cleanly hands its bytes to
      the first accessor: `GetBody` returns exactly the transport's payload
      and `GetBodyMap` decodes exactly that payload. */
  lemma FreshResponseDeliversPayload<M>(status: int, payload: seq<byte>, after: AfterClose,
                                        decode: seq<byte> -> Result<M>)
    ensures GetStatusCode(NewResponse(RawResponse(status, Open(payload, None, after)))) == status
    ensures GetBody(NewResponse(RawResponse(status, Open(payload, None, after)))).result == Ok(payload)
    ensures GetBodyMap(NewResponse(RawResponse(status, Open(payload, None, after))), decode).result
         == decode(payload)
  {
  }
}
