/** The flat-key session binder of sessionslx.go. Every session is one cache
    key, `identifier:session_tokens:token`, stored with SET and an expiry of
    the token's lifetime. A store succeeds only when the cache answers 200
    with the string "OK". Verification asks the token authority about the
    presented token's window and audience first, and only when that passes
    looks the key up and has the stored record validated. */
module FlatSessions {
  import opened Wire
  import opened TokenAuthority
  import opened Encoding
  import Keys
  import CacheService

  const ExpCache: string := "EX"
  const GetCache: string := "GET"
  const OkCache: string := "OK"
  const SessionTokens: string := "session_tokens"
  const SetCache: string := "SET"

  /** The key of the session of `token` under `identifier`. */
  function SetId(identifier: string, token: string): string
  {
    Keys.GetCacheSetId([identifier, SessionTokens, token])
  }

  lemma SetIdIsIdentifierCategoryToken(identifier: string, token: string)
    ensures SetId(identifier, token) == identifier + ":" + SessionTokens + ":" + token
  {
    var parts := [identifier, SessionTokens, token];
    assert parts[1..] == [SessionTokens, token];
    assert parts[1..][1..] == [token];
    assert Keys.GetCacheSetId([token]) == token;
    var tail := Keys.GetCacheSetId([SessionTokens, token]);
    assert tail == SessionTokens + ":" + token;
    assert SetId(identifier, token) == identifier + ":" + tail;
  }

  /** Delimiter-free identifiers and tokens give every session its own key. */
  lemma DistinctSessionsHaveDistinctKeys(i1: string, t1: string, i2: string, t2: string)
    requires Keys.Delimiter !in i1 && Keys.Delimiter !in t1
    requires Keys.Delimiter !in i2 && Keys.Delimiter !in t2
    requires (i1, t1) != (i2, t2)
    ensures SetId(i1, t1) != SetId(i2, t2)
  {
    var a, b := [i1, SessionTokens, t1], [i2, SessionTokens, t2];
    assert Keys.NoDelimiter(a) && Keys.NoDelimiter(b);
    if SetId(i1, t1) == SetId(i2, t2) {
      Keys.GetCacheSetIdInjective(a, b);
    }
  }

  /** Without that restriction two sessions can share a key. */
  lemma DelimiterInPartsCollides()
    ensures SetId("a:session_tokens:b", "c") == SetId("a", "b:session_tokens:c")
  {
    SetIdIsIdentifierCategoryToken("a:session_tokens:b", "c");
    SetIdIsIdentifierCategoryToken("a", "b:session_tokens:c");
  }

  /** The store instruction of `setSession`. */
  function SetInstruction(identifier: string, token: string, json: string, lifetime: Int64): Instruction
  {
    [Str(SetCache), Str(SetId(identifier, token)), Str(json), Str(ExpCache), Int(lifetime)]
  }

  /** The lookup instruction of `VerifySession`. */
  function GetInstruction(identifier: string, token: string): Instruction
  {
    [Str(GetCache), Str(SetId(identifier, token))]
  }

  /** The lookup reads exactly the key the store wrote. */
  lemma LookupFindsStoredSession(st: CacheService.Store, identifier: string, token: string, json: string,
                                 lifetime: Int64, encode: string -> string)
    ensures GetInstruction(identifier, token)[1] == SetInstruction(identifier, token, json, lifetime)[1]
    ensures CacheService.Execute(CacheService.Execute(st, SetInstruction(identifier, token, json, lifetime), encode).0,
                                 GetInstruction(identifier, token), encode).1
            == JsonString(encode(json))
  {
  }

  /** Storing one session does not change what the lookup of another,
      differently keyed session finds. */
  lemma StoreLeavesOtherSessions(st: CacheService.Store, i1: string, t1: string, i2: string, t2: string,
                                 json: string, lifetime: Int64, encode: string -> string)
    requires Keys.Delimiter !in i1 && Keys.Delimiter !in t1
    requires Keys.Delimiter !in i2 && Keys.Delimiter !in t2
    requires (i1, t1) != (i2, t2)
    ensures CacheService.Execute(CacheService.Execute(st, SetInstruction(i1, t1, json, lifetime), encode).0,
                                 GetInstruction(i2, t2), encode).1
            == CacheService.Execute(st, GetInstruction(i2, t2), encode).1
  {
    DistinctSessionsHaveDistinctKeys(i1, t1, i2, t2);
    CacheService.SetKeepsOtherKeys(st, SetId(i1, t1), json, lifetime, SetId(i2, t2), encode);
  }

  /** How `execInstructionsAndParseString` reads a round trip: any non-200
      status is a failure, and a 200 body must be a JSON string, which is
      returned as is (it is not base64-decoded). */
  function StatusReply(reply: PostResult): (r: Result<string, Error>)
    ensures reply.PostFailed? ==> r == Err(reply.err)
    ensures reply.Response? && reply.status != StatusOK ==> r == Err(ErrRequestFailedToResolve)
    ensures reply.Response? && reply.status == StatusOK && reply.body.NotJsonString? ==>
              r.Err? && r.error.External? && r.error.fault.JsonFault?
    ensures r.Ok? <==> reply.Response? && reply.status == StatusOK && !reply.body.NotJsonString?
    ensures r.Ok? ==> r.value == (if reply.body.JsonString? then reply.body.text else "")
  {
    match reply
    case PostFailed(e) => Err(e)
    case Response(status, body) =>
      if status != StatusOK then Err(ErrRequestFailedToResolve)
      else match DecodeJsonString(body)
        case Err(f) => Err(External(f))
        case Ok(text) => Ok(text)
  }

  /** A 200 answer to the SET that decodes to anything but "OK" (another
      string, or `null`, which decodes to "") is an unresolved request. */
  lemma UnacknowledgedStoreFails(body: Body)
    requires body != JsonString(OkCache) && !body.NotJsonString?
    ensures InterpretSetReply(StatusReply(Response(StatusOK, body))) == Outcome(false, Some(ErrRequestFailedToResolve))
  {
  }

  /** How `execAndParseTokenPayloadStr` reads a round trip: the body is
      JSON-decoded and then base64-decoded, whatever the status. */
  function PayloadReply(c: Codec, reply: PostResult): (r: Result<string, Error>)
    ensures reply.PostFailed? ==> r == Err(reply.err)
    ensures reply.Response? ==> (r.Ok? <==> DecodePayload(c, reply.body).Ok?)
    ensures reply.Response? && r.Ok? ==> r.value == DecodePayload(c, reply.body).value
    ensures reply.Response? && r.Err? ==> r.error == External(DecodePayload(c, reply.body).error)
  {
    match reply
    case PostFailed(e) => Err(e)
    case Response(_, body) =>
      match DecodePayload(c, body)
      case Err(f) => Err(External(f))
      case Ok(s) => Ok(s)
  }

  /** The status of the answer plays no part in the payload decoding. */
  lemma PayloadReplyIgnoresStatus(c: Codec, s1: int, s2: int, body: Body)
    ensures PayloadReply(c, Response(s1, body)) == PayloadReply(c, Response(s2, body))
  {
  }

  /** How `setSession` reads the decoded answer to its SET: success exactly
      when it is the string "OK"; every failure carries an error. */
  function InterpretSetReply(reply: Result<string, Error>): (r: Outcome)
    ensures r.ok <==> reply == Ok(OkCache)
    ensures r.ok <==> r.err.None?
    ensures reply.Err? ==> r.err == Some(reply.error)
    ensures reply.Ok? && reply.value != OkCache ==> r.err == Some(ErrRequestFailedToResolve)
  {
    match reply
    case Err(e) => Outcome(false, Some(e))
    case Ok(s) => if s == OkCache then Outcome(true, None) else Outcome(false, Some(ErrRequestFailedToResolve))
  }

  /** How `CreateSession` reads the result of `setSession`. */
  function CreateResult(stored: Outcome): (err: Option<Error>)
    ensures stored.err.Some? ==> err == stored.err
    ensures stored.err.None? ==> (err.None? <==> stored.ok)
    ensures stored == Outcome(false, None) ==> err == Some(ErrSessionWasNotStored)
  {
    if stored.err.Some? then stored.err
    else if stored.ok then None
    else Some(ErrSessionWasNotStored)
  }

  /** Since every failed store carries an error, `CreateSession` never gets
      to report that a session was not stored. */
  lemma NotStoredIsUnreachable(st: CacheService.Store, i: Instruction, net: Network, encode: string -> string)
    ensures CreateResult(InterpretSetReply(StatusReply(CacheService.Serve(st, i, net, encode).1)))
            != Some(ErrSessionWasNotStored)
  {
  }

  /** The result of `VerifySession` once the window check has passed and
      the GET has been decoded to `cached`: an error is returned, an empty
      record is a missing session, and a record is otherwise validated in
      full by the authority. */
  function LookupVerdict(c: Codec, auth: Authority, now: Int64, cached: Result<string, Error>): (r: Outcome)
    ensures cached.Err? ==> r == Outcome(false, Some(cached.error))
    ensures cached == Ok("") ==> r == Outcome(false, Some(ErrSessionDoesNotExist))
    ensures r.ok ==> cached.Ok? && cached.value != ""
    ensures cached.Ok? && cached.value != "" ==>
              var u := c.unmarshalPayload(cached.value);
              r == FromVerdict(auth.validateJWT(u.payload, u.err, now))
  {
    match cached
    case Err(e) => Outcome(false, Some(e))
    case Ok(s) =>
      if |s| == 0 then Outcome(false, Some(ErrSessionDoesNotExist))
      else
        var u := c.unmarshalPayload(s);
        FromVerdict(auth.validateJWT(u.payload, u.err, now))
  }

  /** After a session is stored (both round trips answered 200 and the
      service's encoding is undone by the client's decoding), the lookup of
      the same identifier and token returns the authority's verdict on the
      stored record. */
  lemma StoredSessionReachesValidation(st: CacheService.Store, c: Codec, auth: Authority, encode: string -> string,
                                       identifier: string, token: string, json: string, lifetime: Int64,
                                       now: Int64, b1: Body, b2: Body)
    requires DecodesEncoding(c, encode)
    requires json != ""
    ensures var stored := CacheService.Serve(st, SetInstruction(identifier, token, json, lifetime), Delivers(StatusOK, b1), encode).0;
            var reply := CacheService.Serve(stored, GetInstruction(identifier, token), Delivers(StatusOK, b2), encode).1;
            var u := c.unmarshalPayload(json);
            LookupVerdict(c, auth, now, PayloadReply(c, reply)) == FromVerdict(auth.validateJWT(u.payload, u.err, now))
  {
    LookupFindsStoredSession(st, identifier, token, json, lifetime, encode);
    DecodeEncoded(c, encode, json);
  }

  /** A key with no value, or an empty one, is rejected as a missing
      session once the window check has passed. */
  lemma UnstoredSessionRejected(st: CacheService.Store, c: Codec, auth: Authority, encode: string -> string,
                                identifier: string, token: string, now: Int64, b: Body)
    requires DecodesEncoding(c, encode)
    requires CacheService.StringValue(st, SetId(identifier, token)) == ""
    ensures var reply := CacheService.Serve(st, GetInstruction(identifier, token), Delivers(StatusOK, b), encode).1;
            LookupVerdict(c, auth, now, PayloadReply(c, reply)) == Outcome(false, Some(ErrSessionDoesNotExist))
  {
    DecodeEncoded(c, encode, "");
  }

  /** A `null` answer to the GET, whatever its status, decodes to "" and is
      a missing session. */
  lemma NullLookupIsMissingSession(c: Codec, auth: Authority, now: Int64, status: int)
    requires c.base64Decode("") == Ok("")
    ensures LookupVerdict(c, auth, now, PayloadReply(c, Response(status, JsonNull))) == Outcome(false, Some(ErrSessionDoesNotExist))
  {
  }

  /** `execInstructionsAndParseString`. */
  method ExecInstructionsAndParseString(cache: CacheService.Cache, instructions: Option<Instruction>, net: Network)
    returns (r: Result<string, Error>)
    modifies cache
    ensures instructions.None? ==> r == Err(ErrNilEntry) && unchanged(cache)
    ensures instructions.Some? ==>
              var served := CacheService.Serve(old(cache.Snapshot()), instructions.value, net, cache.encode);
              cache.Snapshot() == served.0 && cache.requests == old(cache.requests) + [instructions.value]
              && r == StatusReply(served.1)
  {
    if instructions.None? {
      return Err(ErrNilEntry);
    }
    var resp := cache.Post(instructions.value, net);
    if resp.PostFailed? {
      return Err(resp.err);
    }
    if resp.status != StatusOK {
      return Err(ErrRequestFailedToResolve);
    }
    var respBodyAsBase64 := DecodeJsonString(resp.body);
    if respBodyAsBase64.Err? {
      return Err(External(respBodyAsBase64.error));
    }
    return Ok(respBodyAsBase64.value);
  }

  /** `execAndParseTokenPayloadStr`. */
  method ExecAndParseTokenPayloadStr(cache: CacheService.Cache, c: Codec, instructions: Option<Instruction>, net: Network)
    returns (r: Result<string, Error>)
    modifies cache
    ensures instructions.None? ==> r == Err(ErrInstructionsAreNil) && unchanged(cache)
    ensures instructions.Some? ==>
              var served := CacheService.Serve(old(cache.Snapshot()), instructions.value, net, cache.encode);
              cache.Snapshot() == served.0 && cache.requests == old(cache.requests) + [instructions.value]
              && r == PayloadReply(c, served.1)
  {
    if instructions.None? {
      return Err(ErrInstructionsAreNil);
    }
    var resp := cache.Post(instructions.value, net);
    if resp.PostFailed? {
      return Err(resp.err);
    }
    var tokenPayloadAsBase64 := DecodeJsonString(resp.body);
    if tokenPayloadAsBase64.Err? {
      return Err(External(tokenPayloadAsBase64.error));
    }
    var tokenPayloadAsBytes := c.base64Decode(tokenPayloadAsBase64.value);
    if tokenPayloadAsBytes.Err? {
      return Err(External(tokenPayloadAsBytes.error));
    }
    return Ok(tokenPayloadAsBytes.value);
  }

  /** `setSession`: SET the JSON payload under the session's key, expiring
      after `lifetimeInSeconds`. */
  method SetSession(cache: CacheService.Cache, c: Codec, identifier: string, payload: Option<TokenPayload>,
                    lifetimeInSeconds: Int64, net: Network)
    returns (stored: bool, err: Option<Error>)
    modifies cache
    ensures !stored ==> err.Some?
    ensures payload.None? ==> !stored && err == Some(ErrTokenPayloadIsNil) && unchanged(cache)
    ensures payload.Some? && c.marshalPayload(payload.value).Err? ==>
              !stored && err == Some(External(c.marshalPayload(payload.value).error)) && unchanged(cache)
    ensures payload.Some? && c.marshalPayload(payload.value).Ok? ==>
              var i := SetInstruction(identifier, payload.value.token, c.marshalPayload(payload.value).value, lifetimeInSeconds);
              var served := CacheService.Serve(old(cache.Snapshot()), i, net, cache.encode);
              cache.requests == old(cache.requests) + [i] && cache.Snapshot() == served.0
              && Outcome(stored, err) == InterpretSetReply(StatusReply(served.1))
  {
    if payload.None? {
      return false, Some(ErrTokenPayloadIsNil);
    }
    var tokenPayloadBytes := c.marshalPayload(payload.value);
    if tokenPayloadBytes.Err? {
      return false, Some(External(tokenPayloadBytes.error));
    }
    var setId := SetId(identifier, payload.value.token);
    var instructions := [Str(SetCache), Str(setId), Str(tokenPayloadBytes.value), Str(ExpCache), Int(lifetimeInSeconds)];
    var respStr := ExecInstructionsAndParseString(cache, Some(instructions), net);
    if respStr.Err? {
      return false, Some(respStr.error);
    }
    if respStr.value == OkCache {
      return true, None;
    }
    return false, Some(ErrRequestFailedToResolve);
  }

  /** `CreateSession`: issue a token and store it for `params.lifetime`
      seconds. */
  method CreateSession(cache: CacheService.Cache, c: Codec, auth: Authority, identifier: string,
                       params: CreateParams, now: Int64, net: Network)
    returns (err: Option<Error>)
    modifies cache
    ensures err != Some(ErrSessionWasNotStored)
    ensures var issued := auth.createJWT(params, now);
            issued.err.Some? || issued.payload.None? ==>
              unchanged(cache) && err == (if issued.err.Some? then Lift(issued.err) else Some(ErrTokenPayloadIsNil))
    ensures var issued := auth.createJWT(params, now);
            issued.err.None? && issued.payload.Some? ==>
              var payload := issued.payload.value;
              match c.marshalPayload(payload)
              case Err(f) => unchanged(cache) && err == Some(External(f))
              case Ok(json) =>
                var i := SetInstruction(identifier, payload.token, json, params.lifetime);
                var served := CacheService.Serve(old(cache.Snapshot()), i, net, cache.encode);
                cache.requests == old(cache.requests) + [i] && cache.Snapshot() == served.0
                && err == CreateResult(InterpretSetReply(StatusReply(served.1)))
  {
    var issued := auth.createJWT(params, now);
    if issued.err.Some? {
      return Lift(issued.err);
    }
    var sessionWasSet, errSetSession := SetSession(cache, c, identifier, issued.payload, params.lifetime, net);
    if errSetSession.Some? {
      return errSetSession;
    }
    if sessionWasSet {
      return None;
    }
    return Some(ErrSessionWasNotStored);
  }

  /** `VerifySession`: the window and audience check first, then the GET,
      the missing-session check and full validation of the stored record. */
  method VerifySession(cache: CacheService.Cache, c: Codec, auth: Authority, identifier: string, token: string,
                       audTarget: string, now: Int64, net: Network)
    returns (ok: bool, err: Option<Error>)
    modifies cache
    ensures var w := auth.validateTokenByWindowAndAud(token, audTarget, None, now);
            !w.valid ==> !ok && err == Lift(w.err) && unchanged(cache)
    ensures var w := auth.validateTokenByWindowAndAud(token, audTarget, None, now);
            w.valid ==>
              cache.requests == old(cache.requests) + [GetInstruction(identifier, token)]
              && cache.Snapshot() == old(cache.Snapshot())
              && Outcome(ok, err) ==
                   LookupVerdict(c, auth, now,
                                 PayloadReply(c, CacheService.Serve(old(cache.Snapshot()), GetInstruction(identifier, token), net, cache.encode).1))
  {
    var window := auth.validateTokenByWindowAndAud(token, audTarget, None, now);
    if !window.valid {
      return false, Lift(window.err);
    }
    var setId := SetId(identifier, token);
    var instructions := [Str(GetCache), Str(setId)];
    var tokenPayloadStr := ExecAndParseTokenPayloadStr(cache, c, Some(instructions), net);
    if tokenPayloadStr.Err? {
      return false, Some(tokenPayloadStr.error);
    }
    if |tokenPayloadStr.value| == 0 {
      return false, Some(ErrSessionDoesNotExist);
    }
    var tokenPayload := c.unmarshalPayload(tokenPayloadStr.value);
    var verdict := auth.validateJWT(tokenPayload.payload, tokenPayload.err, now);
    return verdict.valid, Lift(verdict.err);
  }

  /** A client of the binder: create a session and verify its token over a
      cache that answers 200 both times. Creation succeeds; verification
      fails with the authority's window error when the window check fails,
      and otherwise returns its verdict on the stored record. */
  method CreateThenVerify(cache: CacheService.Cache, c: Codec, auth: Authority, identifier: string,
                          params: CreateParams, audTarget: string, now: Int64, b1: Body, b2: Body)
    returns (created: Option<Error>, ok: bool, err: Option<Error>)
    requires DecodesEncoding(c, cache.encode)
    requires auth.createJWT(params, now).err.None? && auth.createJWT(params, now).payload.Some?
    requires c.marshalPayload(auth.createJWT(params, now).payload.value).Ok?
    requires c.marshalPayload(auth.createJWT(params, now).payload.value).value != ""
    modifies cache
    ensures created.None?
    ensures var payload := auth.createJWT(params, now).payload.value;
            var w := auth.validateTokenByWindowAndAud(payload.token, audTarget, None, now);
            var i := SetInstruction(identifier, payload.token, c.marshalPayload(payload).value, params.lifetime);
            cache.Snapshot() == CacheService.Execute(old(cache.Snapshot()), i, cache.encode).0
            && cache.requests == old(cache.requests) + (if w.valid then [i, GetInstruction(identifier, payload.token)] else [i])
    ensures var payload := auth.createJWT(params, now).payload.value;
            var w := auth.validateTokenByWindowAndAud(payload.token, audTarget, None, now);
            var u := c.unmarshalPayload(c.marshalPayload(payload).value);
            Outcome(ok, err) == if w.valid then FromVerdict(auth.validateJWT(u.payload, u.err, now))
                                else Outcome(false, Lift(w.err))
  {
    var payload := auth.createJWT(params, now).payload.value;
    ghost var st := cache.Snapshot();
    created := CreateSession(cache, c, auth, identifier, params, now, Delivers(StatusOK, b1));
    ok, err := VerifySession(cache, c, auth, identifier, payload.token, audTarget, now, Delivers(StatusOK, b2));
    StoredSessionReachesValidation(st, c, auth, cache.encode, identifier, payload.token,
                                   c.marshalPayload(payload).value, params.lifetime, now, b1, b2);
  }
}
