/** encoding/json and encoding/base64 as the core uses them, given as
    function values that may fail, and the two-stage decoding of a cached
    string that both session variants perform. */
module Encoding {
  import opened Wire
  import opened TokenAuthority

  /** `json.Unmarshal` into a zero `TokenPayload`: the value is whatever was
      decoded, even alongside an error. */
  datatype Unmarshalled = Unmarshalled(payload: TokenPayload, err: Option<Fault>)

  datatype Codec = Codec(
    marshalPayload: TokenPayload -> Result<string, Fault>,
    unmarshalPayload: string -> Unmarshalled,
    base64Decode: string -> Result<string, Fault>)

  /** The client's base64 decoding undoes the cache service's encoding. */
  ghost predicate DecodesEncoding(c: Codec, encode: string -> string)
  {
    forall v :: c.base64Decode(encode(v)) == Ok(v)
  }

  /** Parse the body as a JSON string, then base64-decode that string
      (`parseCachedString` in sessionsx.go, the tail of
      `execAndParseTokenPayloadStr` in sessionslx.go). */
  function DecodePayload(c: Codec, body: Body): (r: Result<string, Fault>)
    ensures body.NotJsonString? ==> r.Err? && r.error.JsonFault?
    ensures body.JsonString? ==> r == c.base64Decode(body.text)
    ensures body.JsonNull? ==> r == c.base64Decode("")
  {
    match DecodeJsonString(body)
    case Err(f) => Err(f)
    case Ok(text) => c.base64Decode(text)
  }

  /** A value the cache service encodes comes back unchanged. */
  lemma DecodeEncoded(c: Codec, encode: string -> string, v: string)
    requires DecodesEncoding(c, encode)
    ensures DecodePayload(c, JsonString(encode(v))) == Ok(v)
  {
  }
}
