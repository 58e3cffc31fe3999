/** The external token authority (the jwtx package). Its operations are not
    part of the core; they are values of function type that a caller
    supplies, so every property proved here holds whatever the authority
    decides. */
module TokenAuthority {
  import opened Wire

  /** `jwtx.CreateJWTParams`. */
  datatype CreateParams = CreateParams(
    aud: seq<string>,
    iss: string,
    sub: string,
    lifetime: Int64,
    delay: Option<Int64>)

  /** `jwtx.TokenPayload`, reduced to the issued token string. Its other
      fields belong to jwtx and are not modelled, so an authority verdict on
      an unmarshalled record can depend only on that record's token. */
  datatype TokenPayload = TokenPayload(token: string)

  /** The claim fields the local window check reads. */
  datatype Claims = Claims(aud: seq<string>, iat: Int64, nbf: Option<Int64>, exp: Int64)

  datatype TokenDetails = TokenDetails(claims: Claims)

  /** `(*TokenPayload, error)` from `jwtx.CreateJWT`. */
  datatype Issued = Issued(payload: Option<TokenPayload>, err: Option<Fault>)

  /** `(*TokenDetails, error)` from `jwtx.RetrieveTokenDetails`. */
  datatype Retrieved = Retrieved(details: Option<TokenDetails>, err: Option<Error>)

  /** `(bool, error)` from the authority's validators. */
  datatype Verdict = Verdict(valid: bool, err: Option<Fault>)

  /** The jwtx entry points the core calls. The `now` argument stands for
      the clock jwtx reads; the prior-error argument is the `err` each Go
      call passes in. `CreateJWT` is always called with a nil error, so that
      argument is left out. */
  datatype Authority = Authority(
    createJWT: (CreateParams, Int64) -> Issued,
    retrieveTokenDetails: (string, Option<Error>) -> Retrieved,
    validateTokenByWindowAndAud: (string, string, Option<Fault>, Int64) -> Verdict,
    validateJWT: (TokenPayload, Option<Fault>, Int64) -> Verdict)

  function FromVerdict(v: Verdict): Outcome
  {
    Outcome(v.valid, Lift(v.err))
  }
}
