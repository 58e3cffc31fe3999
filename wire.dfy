/** Values shared by both session-binding variants: the error sentinels, Go's
    `(bool, error)` pair, the instruction lists sent to the cache service and
    the outcome of one HTTP round trip with it. */
module Wire {

  datatype Option<+T> = None | Some(value: T)

  datatype Result<+T, +E> = Ok(value: T) | Err(error: E)

  /** A failure raised by code outside the core: the network, encoding/json,
      encoding/base64 or the token authority. */
  datatype Fault =
    | TransportFault(reason: string)
    | JsonFault(reason: string)
    | Base64Fault(reason: string)
    | AuthorityFault(reason: string)

  /** The errors the core returns. The sentinels are those declared by
      sessionsx.go (hash scheme) and sessionslx.go (flat scheme); `External`
      passes a foreign failure through unchanged. */
  datatype Error =
    | ErrTokenPayloadIsNil
    | ErrInstructionsAreNil
    | ErrSessionWasNotStored
    | ErrSessionDoesNotExist
    | ErrTokenIsExpired
    | ErrTokenIssuedBeforeNow
    | ErrTokenUsedBeforeExpected
    | ErrAudChunkNotFound
    | ErrNilTokenDetails
    | ErrNilEntry
    | ErrRequestFailedToResolve
    | External(fault: Fault)

  /** Go's `(bool, error)` result pair; `err == None` is a nil error. */
  datatype Outcome = Outcome(ok: bool, err: Option<Error>)

  function Lift(f: Option<Fault>): Option<Error>
  {
    match f
    case None => None
    case Some(fault) => Some(External(fault))
  }

  /** Go's int64. */
  type Int64 = x: int | -0x8000_0000_0000_0000 <= x < 0x8000_0000_0000_0000

  const MinInt64: Int64 := -0x8000_0000_0000_0000
  const MaxInt64: Int64 := 0x7fff_ffff_ffff_ffff

  /** One element of an `[]interface{}` instruction: the core only ever puts
      strings and int64 values in one. */
  datatype Arg = Str(s: string) | Int(n: Int64)

  /** A command name followed by its positional arguments. */
  type Instruction = seq<Arg>

  /** A response body as JSON: a JSON string, the JSON literal `null`, or
      anything else. */
  datatype Body = JsonString(text: string) | JsonNull | NotJsonString(raw: string)

  /** `json.NewDecoder(resp.Body).Decode(&s)` into a Go string. Decoding
      `null` into a non-pointer value leaves it untouched, so `s` keeps its
      zero value "" and no error is reported. */
  function DecodeJsonString(body: Body): (r: Result<string, Fault>)
    ensures r.Err? <==> body.NotJsonString?
    ensures r.Err? ==> r.error.JsonFault?
    ensures body.JsonString? ==> r == Ok(body.text)
    ensures body.JsonNull? ==> r == Ok("")
  {
    match body
    case JsonString(text) => Ok(text)
    case JsonNull => Ok("")
    case NotJsonString(_) => Err(JsonFault("response body is not a JSON string"))
  }

  const StatusOK: int := 200

  /** What the network does with one POST: it reaches the cache service,
      which answers with `status` (a non-200 answer carries `errorBody` and
      leaves the cache untouched), or it fails with a transport fault. */
  datatype Network = Delivers(status: int, errorBody: Body) | Unreachable(fault: Fault)

  /** What the client sees of one POST: a response, or the error returned in
      place of one. */
  datatype PostResult = Response(status: int, body: Body) | PostFailed(err: Error)
}
