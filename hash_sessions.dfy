/** The hash-scheme session binder of sessionsx.go. Every session of a server
    is a field of one cache hash, `server:available_tokens`, whose field is
    the token and whose value is the JSON payload (HSET, no expiry). A store
    succeeds when the cache answers 200. Verification looks the token up
    first and only then asks the token authority about the presented
    token's window and audience and about the stored record. */
module HashSessions {
  import opened Wire
  import opened TokenAuthority
  import opened Encoding
  import Keys
  import CacheService

  const Hset: string := "HSET"
  const Hget: string := "HGET"
  const AvailableTokens: string := "available_tokens"

  /** The hash every session of `serverName` lives in. */
  function SetId(serverName: string): string
  {
    Keys.GetCacheSetId([serverName, AvailableTokens])
  }

  lemma SetIdIsServerAndCategory(serverName: string)
    ensures SetId(serverName) == serverName + ":" + AvailableTokens
  {
    assert [serverName, AvailableTokens][1..] == [AvailableTokens];
    assert Keys.GetCacheSetId([AvailableTokens]) == AvailableTokens;
  }

  /** Two servers never share a hash, whatever their names contain. */
  lemma DistinctServersHaveDistinctHashes(s1: string, s2: string)
    requires s1 != s2
    ensures SetId(s1) != SetId(s2)
  {
    SetIdIsServerAndCategory(s1);
    SetIdIsServerAndCategory(s2);
    var suffix := ":" + AvailableTokens;
    assert SetId(s1)[..|SetId(s1)| - |suffix|] == s1;
    assert SetId(s2)[..|SetId(s2)| - |suffix|] == s2;
  }

  /** The store instruction of `setSession`. */
  function HsetInstruction(serverName: string, token: string, json: string): Instruction
  {
    [Str(Hset), Str(SetId(serverName)), Str(token), Str(json)]
  }

  /** The lookup instruction of `VerifySession`. */
  function HgetInstruction(serverName: string, token: string): Instruction
  {
    [Str(Hget), Str(SetId(serverName)), Str(token)]
  }

  /** The lookup addresses exactly the hash and field the store wrote. */
  lemma LookupFindsStoredSession(st: CacheService.Store, serverName: string, token: string, json: string, encode: string -> string)
    ensures HgetInstruction(serverName, token)[1..] == HsetInstruction(serverName, token, json)[1..3]
    ensures CacheService.Execute(CacheService.Execute(st, HsetInstruction(serverName, token, json), encode).0,
                                 HgetInstruction(serverName, token), encode).1
            == JsonString(encode(json))
  {
  }

  /** Storing a session of one server does not change what a lookup for
      another server finds. */
  lemma StoreLeavesOtherServers(st: CacheService.Store, s1: string, s2: string, token: string, token': string,
                                json: string, encode: string -> string)
    requires s1 != s2
    ensures CacheService.Execute(CacheService.Execute(st, HsetInstruction(s1, token, json), encode).0,
                                 HgetInstruction(s2, token'), encode).1
            == CacheService.Execute(st, HgetInstruction(s2, token'), encode).1
  {
    DistinctServersHaveDistinctHashes(s1, s2);
    CacheService.HsetKeepsOtherFields(st, SetId(s1), token, json, SetId(s2), token', encode);
  }

  /** How `setSession` reads the answer to its HSET: a transport error is
      returned, and otherwise only the status matters, a non-200 answer
      being a plain `false` with no error. */
  function StoreOutcome(reply: PostResult): (r: Outcome)
    ensures r.ok <==> reply.Response? && reply.status == StatusOK
    ensures reply.Response? ==> r.err.None?
    ensures reply.PostFailed? ==> r.err == Some(reply.err)
  {
    match reply
    case PostFailed(e) => Outcome(false, Some(e))
    case Response(status, _) => Outcome(status == StatusOK, None)
  }

  /** How `CreateSession` reads the result of `setSession`. */
  function CreateResult(stored: Outcome): (err: Option<Error>)
    ensures stored.err.Some? ==> err == stored.err
    ensures stored.err.None? ==> (err.None? <==> stored.ok)
    ensures stored == Outcome(false, None) ==> err == Some(ErrSessionWasNotStored)
  {
    if stored.err.Some? then stored.err
    else if stored.ok then None
    else Some(ErrSessionWasNotStored)
  }

  /** What the authority makes of a presented token whose non-empty stored
      record is `cached`: the window and audience check, then full
      validation of the decoded record. */
  function AuthorityVerdict(c: Codec, auth: Authority, token: string, audTarget: string, now: Int64, cached: string): (r: Outcome)
    ensures var u := c.unmarshalPayload(cached);
            var w := auth.validateTokenByWindowAndAud(token, audTarget, u.err, now);
            (!w.valid ==> r == Outcome(false, Lift(w.err)))
            && (w.valid ==> r == FromVerdict(auth.validateJWT(u.payload, w.err, now)))
    ensures var u := c.unmarshalPayload(cached);
            r.ok ==> auth.validateTokenByWindowAndAud(token, audTarget, u.err, now).valid
                     && auth.validateJWT(u.payload, auth.validateTokenByWindowAndAud(token, audTarget, u.err, now).err, now).valid
  {
    var u := c.unmarshalPayload(cached);
    var w := auth.validateTokenByWindowAndAud(token, audTarget, u.err, now);
    if !w.valid then Outcome(false, Lift(w.err))
    else FromVerdict(auth.validateJWT(u.payload, w.err, now))
  }

  /** The result of `VerifySession` once the HGET round trip is `reply`. The
      HTTP status is not inspected; an empty cached string is a missing
      session and is rejected before the authority is asked anything. */
  function LookupVerdict(c: Codec, auth: Authority, token: string, audTarget: string, now: Int64, reply: PostResult): (r: Outcome)
    ensures reply.PostFailed? ==> r == Outcome(false, Some(reply.err))
    ensures reply.Response? && DecodePayload(c, reply.body).Err? ==> r == Outcome(false, Lift(Some(DecodePayload(c, reply.body).error)))
    ensures reply.Response? && DecodePayload(c, reply.body) == Ok("") ==> r == Outcome(false, Some(ErrSessionDoesNotExist))
    ensures r.ok ==> reply.Response? && DecodePayload(c, reply.body).Ok? && DecodePayload(c, reply.body).value != ""
    ensures reply.Response? && DecodePayload(c, reply.body).Ok? && DecodePayload(c, reply.body).value != "" ==>
              r == AuthorityVerdict(c, auth, token, audTarget, now, DecodePayload(c, reply.body).value)
  {
    match reply
    case PostFailed(e) => Outcome(false, Some(e))
    case Response(_, body) =>
      match DecodePayload(c, body)
      case Err(f) => Outcome(false, Some(External(f)))
      case Ok(cached) =>
        if |cached| == 0 then Outcome(false, Some(ErrSessionDoesNotExist))
        else AuthorityVerdict(c, auth, token, audTarget, now, cached)
  }

  /** After a session is stored (both round trips answered 200 and the
      service's encoding is undone by the client's decoding), verifying the
      same token on the same server gets past the cache and returns the
      authority's verdict on the stored record. */
  lemma StoredSessionReachesValidation(st: CacheService.Store, c: Codec, auth: Authority, encode: string -> string,
                                       serverName: string, token: string, json: string, audTarget: string, now: Int64,
                                       b1: Body, b2: Body)
    requires DecodesEncoding(c, encode)
    requires json != ""
    ensures var stored := CacheService.Serve(st, HsetInstruction(serverName, token, json), Delivers(StatusOK, b1), encode).0;
            var reply := CacheService.Serve(stored, HgetInstruction(serverName, token), Delivers(StatusOK, b2), encode).1;
            LookupVerdict(c, auth, token, audTarget, now, reply) == AuthorityVerdict(c, auth, token, audTarget, now, json)
  {
    LookupFindsStoredSession(st, serverName, token, json, encode);
    DecodeEncoded(c, encode, json);
  }

  /** A token never stored for this server is rejected as a missing
      session, whatever the authority would say. */
  lemma UnstoredSessionRejected(st: CacheService.Store, c: Codec, auth: Authority, encode: string -> string,
                                serverName: string, token: string, audTarget: string, now: Int64, b: Body)
    requires DecodesEncoding(c, encode)
    requires CacheService.HashField(st, SetId(serverName), token) == ""
    ensures var reply := CacheService.Serve(st, HgetInstruction(serverName, token), Delivers(StatusOK, b), encode).1;
            LookupVerdict(c, auth, token, audTarget, now, reply) == Outcome(false, Some(ErrSessionDoesNotExist))
  {
    DecodeEncoded(c, encode, "");
  }

  /** A `null` answer to the HGET, whatever its status, decodes to "" and is
      a missing session. */
  lemma NullLookupIsMissingSession(c: Codec, auth: Authority, token: string, audTarget: string, now: Int64, status: int)
    requires c.base64Decode("") == Ok("")
    ensures LookupVerdict(c, auth, token, audTarget, now, Response(status, JsonNull)) == Outcome(false, Some(ErrSessionDoesNotExist))
  {
  }

  /** `findAudChunk`: a linear search for `audTarget`. */
  method FindAudChunk(aud: seq<string>, audTarget: string) returns (found: bool)
    ensures found <==> audTarget in aud
  {
    for i := 0 to |aud|
      invariant audTarget !in aud[..i]
    {
      if aud[i] == audTarget {
        return true;
      }
    }
    return false;
  }

  /** The claims part of `validateTokenWindowAndAud`: the audience must
      contain the target, the token must not be issued in the future, its
      not-before time (when present) must have passed, and it must expire
      strictly after `now`; the first check that fails names the error. */
  function ClaimsCheck(claims: Claims, audTarget: string, now: Int64): (r: Outcome)
    ensures r.ok <==> audTarget in claims.aud && claims.iat <= now
                      && (claims.nbf.None? || claims.nbf.value <= now) && claims.exp > now
    ensures r.ok <==> r.err.None?
    ensures audTarget !in claims.aud ==> r.err == Some(ErrAudChunkNotFound)
    ensures audTarget in claims.aud && claims.iat > now ==> r.err == Some(ErrTokenIssuedBeforeNow)
    ensures audTarget in claims.aud && claims.iat <= now && claims.nbf.Some? && claims.nbf.value > now
            ==> r.err == Some(ErrTokenUsedBeforeExpected)
    ensures (audTarget in claims.aud && claims.iat <= now && (claims.nbf.None? || claims.nbf.value <= now)
             && claims.exp <= now) ==> r.err == Some(ErrTokenIsExpired)
  {
    if audTarget !in claims.aud then Outcome(false, Some(ErrAudChunkNotFound))
    else if claims.iat > now then Outcome(false, Some(ErrTokenIssuedBeforeNow))
    else if claims.nbf.Some? && claims.nbf.value > now then Outcome(false, Some(ErrTokenUsedBeforeExpected))
    else if claims.exp - now > 0 then Outcome(true, None)
    else Outcome(false, Some(ErrTokenIsExpired))
  }

  /** Go's int64 subtraction, which wraps around modulo 2^64. */
  function Int64Sub(a: Int64, b: Int64): (d: Int64)
    ensures (a - b - d) % 0x1_0000_0000_0000_0000 == 0
    ensures MinInt64 <= a - b <= MaxInt64 ==> d == a - b
    ensures a - b > MaxInt64 ==> d < 0
  {
    var e := a - b;
    if e > MaxInt64 then e - 0x1_0000_0000_0000_0000
    else if e < MinInt64 then e + 0x1_0000_0000_0000_0000
    else e
  }

  /** The claims check as written, with `lifetime := Exp - currentTime`
      computed in int64. */
  function ClaimsCheckAsWritten(claims: Claims, audTarget: string, now: Int64): (r: Outcome)
    ensures r.ok <==> audTarget in claims.aud && claims.iat <= now
                      && (claims.nbf.None? || claims.nbf.value <= now) && Int64Sub(claims.exp, now) > 0
    ensures r.ok <==> r.err.None?
    ensures audTarget !in claims.aud ==> r.err == Some(ErrAudChunkNotFound)
    ensures audTarget in claims.aud && claims.iat > now ==> r.err == Some(ErrTokenIssuedBeforeNow)
    ensures audTarget in claims.aud && claims.iat <= now && claims.nbf.Some? && claims.nbf.value > now
            ==> r.err == Some(ErrTokenUsedBeforeExpected)
    ensures (audTarget in claims.aud && claims.iat <= now && (claims.nbf.None? || claims.nbf.value <= now)
             && Int64Sub(claims.exp, now) <= 0) ==> r.err == Some(ErrTokenIsExpired)
  {
    if audTarget !in claims.aud then Outcome(false, Some(ErrAudChunkNotFound))
    else if claims.iat > now then Outcome(false, Some(ErrTokenIssuedBeforeNow))
    else if claims.nbf.Some? && claims.nbf.value > now then Outcome(false, Some(ErrTokenUsedBeforeExpected))
    else if Int64Sub(claims.exp, now) > 0 then Outcome(true, None)
    else Outcome(false, Some(ErrTokenIsExpired))
  }

  /** With the wrap-around, a token that expired at the earliest int64 time
      is accepted at any positive `now`. */
  lemma ExpiryWrapAcceptsExpiredToken(now: Int64)
    requires now > 0
    ensures var claims := Claims(["aud"], 0, None, MinInt64);
            claims.exp < now && ClaimsCheckAsWritten(claims, "aud", now) == Outcome(true, None)
  {
  }

  /** The two checks differ only where `exp - now` overflows int64. */
  lemma AsWrittenAgreesWithoutOverflow(claims: Claims, audTarget: string, now: Int64)
    requires MinInt64 <= claims.exp - now <= MaxInt64
    ensures ClaimsCheckAsWritten(claims, audTarget, now) == ClaimsCheck(claims, audTarget, now)
  {
  }

  const TestLocalSessions: string := "local_sessions_test"
  const TestLocalSessionsBadAudChunk: string := "local_sessions_test_invalid_chunk"

  /** The three rejected tokens of the package's tests: one whose
      not-before time is 60 seconds ahead, one with lifetime 0, and one
      checked against a target outside its audience. */
  lemma TestTokensRejected(now: Int64, iat: Int64)
    requires now <= MaxInt64 - 3600
    ensures ClaimsCheck(Claims([TestLocalSessions], now, Some(now + 60), now + 3600), TestLocalSessions, now)
            == Outcome(false, Some(ErrTokenUsedBeforeExpected))
    ensures ClaimsCheck(Claims([TestLocalSessions], now, None, now), TestLocalSessions, now)
            == Outcome(false, Some(ErrTokenIsExpired))
    ensures ClaimsCheck(Claims([TestLocalSessions], iat, None, now + 3600), TestLocalSessionsBadAudChunk, now)
            == Outcome(false, Some(ErrAudChunkNotFound))
  {
  }

  /** `validateTokenWindowAndAud`: retrieve the token's details from the
      authority, then check its claims. */
  method ValidateTokenWindowAndAud(auth: Authority, token: string, audTarget: string, prior: Option<Error>, now: Int64)
    returns (ok: bool, err: Option<Error>)
    ensures var d := auth.retrieveTokenDetails(token, prior);
            Outcome(ok, err) ==
              if d.err.Some? then Outcome(false, d.err)
              else if d.details.None? then Outcome(false, Some(ErrNilTokenDetails))
              else ClaimsCheck(d.details.value.claims, audTarget, now)
  {
    var retrieved := auth.retrieveTokenDetails(token, prior);
    if retrieved.err.Some? {
      return false, retrieved.err;
    }
    if retrieved.details.None? {
      return false, Some(ErrNilTokenDetails);
    }
    var claims := retrieved.details.value.claims;
    var audChunkFound := FindAudChunk(claims.aud, audTarget);
    if !audChunkFound {
      return false, Some(ErrAudChunkNotFound);
    }
    if claims.iat > now {
      return false, Some(ErrTokenIssuedBeforeNow);
    }
    if claims.nbf.Some? && claims.nbf.value > now {
      return false, Some(ErrTokenUsedBeforeExpected);
    }
    var lifetime := claims.exp - now;
    if lifetime > 0 {
      return true, None;
    }
    return false, Some(ErrTokenIsExpired);
  }

  /** `postJSONRequest`: a nil instruction list is refused without a
      request; otherwise the list is posted to the cache. */
  method PostJSONRequest(cache: CacheService.Cache, instructions: Option<Instruction>, net: Network)
    returns (r: PostResult)
    modifies cache
    ensures instructions.None? ==> r == PostFailed(ErrInstructionsAreNil) && unchanged(cache)
    ensures instructions.Some? ==>
              (cache.Snapshot(), r) == CacheService.Serve(old(cache.Snapshot()), instructions.value, net, cache.encode)
              && cache.requests == old(cache.requests) + [instructions.value]
  {
    if instructions.None? {
      return PostFailed(ErrInstructionsAreNil);
    }
    r := cache.Post(instructions.value, net);
  }

  /** `setSession`: HSET the JSON payload under the token's field of the
      server's hash. */
  method SetSession(cache: CacheService.Cache, c: Codec, serverName: string, payload: Option<TokenPayload>, net: Network)
    returns (stored: bool, err: Option<Error>)
    modifies cache
    ensures payload.None? ==> !stored && err == Some(ErrTokenPayloadIsNil) && unchanged(cache)
    ensures payload.Some? && c.marshalPayload(payload.value).Err? ==>
              !stored && err == Some(External(c.marshalPayload(payload.value).error)) && unchanged(cache)
    ensures payload.Some? && c.marshalPayload(payload.value).Ok? ==>
              var i := HsetInstruction(serverName, payload.value.token, c.marshalPayload(payload.value).value);
              var served := CacheService.Serve(old(cache.Snapshot()), i, net, cache.encode);
              cache.requests == old(cache.requests) + [i] && cache.Snapshot() == served.0
              && Outcome(stored, err) == StoreOutcome(served.1)
  {
    if payload.None? {
      return false, Some(ErrTokenPayloadIsNil);
    }
    var setId := SetId(serverName);
    var marshalled := c.marshalPayload(payload.value);
    if marshalled.Err? {
      return false, Some(External(marshalled.error));
    }
    var instructions := [Str(Hset), Str(setId), Str(payload.value.token), Str(marshalled.value)];
    var resp := PostJSONRequest(cache, Some(instructions), net);
    if resp.PostFailed? {
      return false, Some(resp.err);
    }
    if resp.status == StatusOK {
      return true, None;
    }
    return false, None;
  }

  /** `CreateSession`: a prior error is returned as is; otherwise issue a
      token and store it. */
  method CreateSession(cache: CacheService.Cache, c: Codec, auth: Authority, serverName: string,
                       params: CreateParams, prior: Option<Error>, now: Int64, net: Network)
    returns (err: Option<Error>)
    modifies cache
    ensures prior.Some? ==> err == prior && unchanged(cache)
    ensures var issued := auth.createJWT(params, now);
            prior.None? && (issued.err.Some? || issued.payload.None?) ==>
              unchanged(cache) && err == (if issued.err.Some? then Lift(issued.err) else Some(ErrTokenPayloadIsNil))
    ensures var issued := auth.createJWT(params, now);
            prior.None? && issued.err.None? && issued.payload.Some? ==>
              var payload := issued.payload.value;
              match c.marshalPayload(payload)
              case Err(f) => unchanged(cache) && err == Some(External(f))
              case Ok(json) =>
                var i := HsetInstruction(serverName, payload.token, json);
                var served := CacheService.Serve(old(cache.Snapshot()), i, net, cache.encode);
                cache.requests == old(cache.requests) + [i] && cache.Snapshot() == served.0
                && err == CreateResult(StoreOutcome(served.1))
  {
    if prior.Some? {
      return prior;
    }
    var issued := auth.createJWT(params, now);
    if issued.err.Some? {
      return Lift(issued.err);
    }
    var sessionWasSet, errSetSession := SetSession(cache, c, serverName, issued.payload, net);
    if errSetSession.Some? {
      return errSetSession;
    }
    if sessionWasSet {
      return None;
    }
    return Some(ErrSessionWasNotStored);
  }

  /** `VerifySession`: HGET the token's field, decode it, reject an empty
      record, then ask the authority. */
  method VerifySession(cache: CacheService.Cache, c: Codec, auth: Authority, serverName: string, token: string,
                       audTarget: string, now: Int64, net: Network)
    returns (ok: bool, err: Option<Error>)
    modifies cache
    ensures cache.requests == old(cache.requests) + [HgetInstruction(serverName, token)]
    ensures cache.Snapshot() == old(cache.Snapshot())
    ensures Outcome(ok, err) ==
              LookupVerdict(c, auth, token, audTarget, now,
                            CacheService.Serve(old(cache.Snapshot()), HgetInstruction(serverName, token), net, cache.encode).1)
  {
    var setId := SetId(serverName);
    var instructions := [Str(Hget), Str(setId), Str(token)];
    var resp := PostJSONRequest(cache, Some(instructions), net);
    if resp.PostFailed? {
      return false, Some(resp.err);
    }
    var decoded := DecodePayload(c, resp.body);
    if decoded.Err? {
      return false, Some(External(decoded.error));
    }
    if |decoded.value| == 0 {
      return false, Some(ErrSessionDoesNotExist);
    }
    var unmarshalled := c.unmarshalPayload(decoded.value);
    var window := auth.validateTokenByWindowAndAud(token, audTarget, unmarshalled.err, now);
    if !window.valid {
      return false, Lift(window.err);
    }
    var verdict := auth.validateJWT(unmarshalled.payload, window.err, now);
    return verdict.valid, Lift(verdict.err);
  }

  /** A client of the binder: create a session and verify its token over a
      cache that answers 200 both times. Creation succeeds, and the
      verification returns the authority's verdict on the stored record. */
  method CreateThenVerify(cache: CacheService.Cache, c: Codec, auth: Authority, serverName: string,
                          params: CreateParams, audTarget: string, now: Int64, b1: Body, b2: Body)
    returns (created: Option<Error>, ok: bool, err: Option<Error>)
    requires DecodesEncoding(c, cache.encode)
    requires auth.createJWT(params, now).err.None? && auth.createJWT(params, now).payload.Some?
    requires c.marshalPayload(auth.createJWT(params, now).payload.value).Ok?
    requires c.marshalPayload(auth.createJWT(params, now).payload.value).value != ""
    modifies cache
    ensures created.None?
    ensures var payload := auth.createJWT(params, now).payload.value;
            var i := HsetInstruction(serverName, payload.token, c.marshalPayload(payload).value);
            cache.requests == old(cache.requests) + [i, HgetInstruction(serverName, payload.token)]
            && cache.Snapshot() == CacheService.Execute(old(cache.Snapshot()), i, cache.encode).0
    ensures var payload := auth.createJWT(params, now).payload.value;
            Outcome(ok, err) == AuthorityVerdict(c, auth, payload.token, audTarget, now, c.marshalPayload(payload).value)
  {
    var payload := auth.createJWT(params, now).payload.value;
    ghost var st := cache.Snapshot();
    created := CreateSession(cache, c, auth, serverName, params, None, now, Delivers(StatusOK, b1));
    ok, err := VerifySession(cache, c, auth, serverName, payload.token, audTarget, now, Delivers(StatusOK, b2));
    StoredSessionReachesValidation(st, c, auth, cache.encode, serverName, payload.token,
                                   c.marshalPayload(payload).value, audTarget, now, b1, b2);
  }
}
