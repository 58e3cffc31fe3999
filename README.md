# Session binding for signed tokens, modelled in Dafny

This project models the session binding core of `sessionslx`. The core issues a signed
token (through the external jwtx token authority) and records a copy of it in a remote
key/value cache. Later it accepts a presented token only if the authority validates it
and the cache still holds its record. Deleting the record therefore revokes a token
that is otherwise still valid.

The repository has two variants of the core. They declare the same identifiers in the
same Go package, so they cannot be built together. Each one is modelled as written, in
its own module:

- `HashSessions` (v0.1/golang/sessionsx.go): the hash scheme. All sessions of a server
  are fields of one hash, `server:available_tokens`. The field is the token and the
  value is the JSON payload. A session is stored with `HSET`, and a store succeeds when
  the cache answers HTTP 200. `VerifySession` looks the token up with `HGET` before it
  asks the authority anything. This module also holds the local claims check
  (`findAudChunk`, `validateTokenWindowAndAud`), which works on concrete claim integers.
- `FlatSessions` (v0.1/golang/sessionslx.go): the flat-key scheme. Each session has one
  key, `identifier:session_tokens:token`. It is stored with `SET … EX lifetime`, and a
  store succeeds only if the answer decodes to the string `"OK"`. `VerifySession` asks
  the authority to check the token's time window and audience first, and sends `GET`
  only if that check passes.

Supporting modules:

- `Wire`: the error sentinels, `Option`/`Result`, Go's `(bool, error)` pair (`Outcome`),
  the `[]interface{}` instruction lists, and one HTTP round trip. A round trip is an
  abstract `Network` value: the request is delivered with a status, or the transport
  fails.
- `Keys`: `getCacheSetID`, which is `strings.Join` with `":"`. It comes with its inverse
  `Split`, and the two are proved to undo each other.
- `TokenAuthority`: the jwtx types, plus the four jwtx entry points, which are supplied
  as function values (`Authority`). Every property holds whatever they decide.
- `Encoding`: `json.Marshal`/`json.Unmarshal` of the payload and
  `base64.URLEncoding.DecodeString`, as function values that may fail (`Codec`). It also
  holds the two-stage decode of a cached string that both variants perform.
- `CacheService`: the remote cache, modelled as far as its wire contract goes. It is a
  class `Cache` holding a two-level map (hashes), a one-level map (string keys with
  their expiry) and the log of every instruction posted to it. On the 200 path the
  service runs the instruction (pure `Execute`/`Serve`). String replies are the cache's
  base64 encoding of the value, and the encoding of `""` on a miss.

Every method that talks to the cache has `modifies cache`. Its `ensures` gives the
requests it sent, the cache state afterwards, and its result as a function of what the
cache answered. The properties of those functions are stated as lemmas.

Where the code and the design description of the system disagree, the model follows
the code:

- The hash variant looks up the cache before the window check, not after it.
- The hash variant does not check the HTTP status of the `HGET` answer.
- The flat variant reports a store that was not acknowledged with `"OK"` as
  `errRequestFailedToResolve`. So `errSessionWasNotStored` can never come out of its
  `CreateSession`.
- A stored record that does not parse is not a separate error. The `json.Unmarshal`
  error is handed to jwtx as the prior error.

## Model

| member | source | states |
|---|---|---|
| Keys.GetCacheSetId | v0.1/golang/sessionsx.go:44-45 | `getCacheSetID`, i.e. `strings.Join` with ":": the key starts with the first part, followed by ":" when more parts come. Split is its inverse (SplitJoin, JoinSplit) |
| Keys.SplitJoin | v0.1/golang/sessionsx.go:43-45 | Splitting a key on ":" returns the non-empty, delimiter-free list of parts it was joined from |
| Keys.JoinSplit | v0.1/golang/sessionslx.go:33-35 | Joining the ":"-separated pieces of any string gives back that string |
| Keys.GetCacheSetIdInjective | v0.1/golang/sessionsx.go:43-45 | Two non-empty lists of delimiter-free parts build the same key only if the lists are equal |
| HashSessions.SetIdIsServerAndCategory | v0.1/golang/sessionsx.go:92 | The hash of a server is `serverName + ":available_tokens"` |
| HashSessions.DistinctServersHaveDistinctHashes | v0.1/golang/sessionsx.go:92 | Different server names give different hashes, whatever characters the names contain |
| HashSessions.LookupFindsStoredSession | v0.1/golang/sessionsx.go:189-190 | The HGET of VerifySession addresses the same hash and field that the HSET of setSession writes, and after that HSET it reads back the encoded payload |
| HashSessions.StoreLeavesOtherServers | v0.1/golang/sessionsx.go:101 | Storing a session for one server does not change what a lookup for another server finds |
| HashSessions.StoreOutcome | v0.1/golang/sessionsx.go:104-114 | A transport error gives (false, that error); otherwise the result is true exactly on status 200, and never carries an error |
| HashSessions.CreateResult | v0.1/golang/sessionsx.go:131-140 | A setSession error passes through unchanged, (true, nil) gives nil, and (false, nil) gives errSessionWasNotStored |
| HashSessions.AuthorityVerdict | v0.1/golang/sessionsx.go:205-217 | For a non-empty stored record: a failed window and audience check returns (false, its error) without full validation. Otherwise the result is ValidateJWT's verdict on the unmarshalled record, with the window error as the prior error. A true result needs both checks to pass |
| HashSessions.LookupVerdict | v0.1/golang/sessionsx.go:197-217 | Transport and decode errors are returned. An empty cached string gives (false, errSessionDoesNotExist) before any authority call. A true verdict needs a non-empty record, and then the result is the window check followed by full validation of the decoded record |
| HashSessions.StoredSessionReachesValidation | v0.1/golang/sessionsx_test.go:136-150 | After a store answered with 200, a lookup of the same token answered with 200 gets past the cache, and the result is the authority's verdict on the stored JSON |
| HashSessions.UnstoredSessionRejected | v0.1/golang/sessionsx.go:201-203 | A token whose field holds nothing is rejected with errSessionDoesNotExist, whatever the authority would say |
| HashSessions.FindAudChunk | v0.1/golang/sessionsx.go:143-151 | Returns true exactly when the target occurs in the audience list |
| HashSessions.ClaimsCheck | v0.1/golang/sessionsx.go:162-185 | Valid exactly when the audience contains the target, iat <= now, nbf is absent or <= now, and exp > now. Failures are reported in that order: errAudChunkNotFound, errTokenIssuedBeforeNow, errTokenUsedBeforeExpected, errTokenIsExpired |
| HashSessions.Int64Sub | v0.1/golang/sessionsx.go:178 | Go's int64 `-`: the result equals the exact difference modulo 2^64. It is exact when the difference fits, and negative when the difference exceeds the int64 maximum |
| HashSessions.ClaimsCheckAsWritten | v0.1/golang/sessionsx.go:162-185 | The claims check as written: the same checks and errors, in the same order, as ClaimsCheck, except that expiry is tested on the wrapped int64 `exp - now` |
| HashSessions.NullLookupIsMissingSession | v0.1/golang/sessionsx.go:68-86 | A `null` HGET answer with any status decodes to "" (encoding/json leaves the string at its zero value) and gives errSessionDoesNotExist |
| HashSessions.ExpiryWrapAcceptsExpiredToken | v0.1/golang/sessionsx.go:178-183 | With int64 wrap-around, a token with exp = -2^63 is accepted at every positive `now`, even though it has expired |
| HashSessions.AsWrittenAgreesWithoutOverflow | v0.1/golang/sessionsx.go:178-183 | When `exp - now` fits in int64, the check as written and the corrected check agree |
| HashSessions.TestTokensRejected | v0.1/golang/sessionsx_test.go:100-134 | Each test token is rejected with its own error: nbf 60 s ahead, lifetime 0 (exp == now), and a target outside the audience |
| HashSessions.ValidateTokenWindowAndAud | v0.1/golang/sessionsx.go:153-186 | An error from RetrieveTokenDetails is passed through, nil details give errNilTokenDetails, and otherwise the result is ClaimsCheck on the token's claims |
| HashSessions.PostJSONRequest | v0.1/golang/sessionsx.go:47-66 | A nil instruction list gives errInstructionsAreNil with no request sent; otherwise exactly that list is posted, and the result is the cache's answer |
| HashSessions.SetSession | v0.1/golang/sessionsx.go:88-115 | A nil payload or a marshal error fails with no request sent. Otherwise exactly [HSET, server:available_tokens, token, json] is sent, and the result is StoreOutcome of the answer |
| HashSessions.CreateSession | v0.1/golang/sessionsx.go:117-141 | A non-nil incoming error is returned unchanged and the cache is untouched. An issuance error is passed through. Otherwise the payload is stored as in setSession, and the result is CreateResult of the store outcome |
| HashSessions.VerifySession | v0.1/golang/sessionsx.go:188-218 | Sends exactly [HGET, server:available_tokens, token], leaves the cached data unchanged, and returns LookupVerdict of the cache's answer |
| HashSessions.CreateThenVerify | v0.1/golang/sessionsx_test.go:80-86 | When the cache answers both requests as its wire contract says (200, and the encoded record for the HGET), creating a session succeeds and verifying its token returns the authority's verdict on the stored record. Exactly the HSET and then the HGET are sent, and the cache afterwards holds the HSET's effect |
| Encoding.DecodeEncoded | v0.1/golang/sessionsx.go:68-86 | The two-stage decode (JSON string, then base64) returns exactly the value the cache encoded |
| Encoding.DecodePayload | v0.1/golang/sessionslx.go:96-111 | A body that is neither a JSON string nor `null` fails with a JSON error. A JSON string is base64-decoded, and `null` is decoded as the empty string "" |
| FlatSessions.SetIdIsIdentifierCategoryToken | v0.1/golang/sessionslx.go:133 | The flat key is `identifier + ":" + "session_tokens" + ":" + token` |
| FlatSessions.DistinctSessionsHaveDistinctKeys | v0.1/golang/sessionslx.go:133 | Different (identifier, token) pairs without ":" give different keys |
| FlatSessions.DelimiterInPartsCollides | v0.1/golang/sessionslx.go:33-35 | Parts that contain ":" can collide: ("a:session_tokens:b", "c") and ("a", "b:session_tokens:c") share a key |
| FlatSessions.LookupFindsStoredSession | v0.1/golang/sessionslx.go:198 | The GET of VerifySession reads the same key that the SET of setSession writes, and after that SET it reads back the encoded payload |
| FlatSessions.StoreLeavesOtherSessions | v0.1/golang/sessionslx.go:133 | For delimiter-free parts, storing one (identifier, token) session leaves the GET answer for every other session unchanged |
| FlatSessions.StatusReply | v0.1/golang/sessionslx.go:54-70 | A transport error is returned, and any non-200 status gives errRequestFailedToResolve. A 200 body that is not JSON gives the JSON error. A 200 JSON string is returned without base64 decoding, and a 200 `null` gives "" |
| FlatSessions.UnacknowledgedStoreFails | v0.1/golang/sessionslx.go:142-150 | A 200 answer to the SET that decodes to anything but "OK", `null` included, gives (false, errRequestFailedToResolve) |
| FlatSessions.PayloadReply | v0.1/golang/sessionslx.go:90-111 | A transport error is returned; otherwise the result is the two-stage decode of the body |
| FlatSessions.PayloadReplyIgnoresStatus | v0.1/golang/sessionslx.go:90-111 | The payload decode does not depend on the HTTP status |
| FlatSessions.InterpretSetReply | v0.1/golang/sessionslx.go:142-150 | Success exactly when the reply is "OK". Every failure carries an error: the propagated one, or errRequestFailedToResolve |
| FlatSessions.CreateResult | v0.1/golang/sessionslx.go:169-177 | A setSession error passes through unchanged, (true, nil) gives nil, and (false, nil) gives errSessionWasNotStored |
| FlatSessions.NotStoredIsUnreachable | v0.1/golang/sessionslx.go:123-151 | Whatever the cache answers, CreateSession's reading of setSession's result is never errSessionWasNotStored |
| FlatSessions.LookupVerdict | v0.1/golang/sessionslx.go:204-214 | A lookup error is returned, an empty record gives errSessionDoesNotExist, and a non-empty record gets the authority's full validation of the decoded payload |
| FlatSessions.StoredSessionReachesValidation | v0.1/golang/sessionslx_test.go:99-114 | After a SET answered with 200, a GET of the same key answered with 200 gets past the cache, and the result is the authority's verdict on the stored JSON |
| FlatSessions.UnstoredSessionRejected | v0.1/golang/sessionslx.go:207-209 | Once the window check has passed, a key whose value is empty is rejected with errSessionDoesNotExist |
| FlatSessions.NullLookupIsMissingSession | v0.1/golang/sessionslx.go:96-111 | A `null` GET answer with any status decodes to "" and gives errSessionDoesNotExist |
| FlatSessions.ExecInstructionsAndParseString | v0.1/golang/sessionslx.go:37-71 | Nil instructions give errNilEntry with no request sent; otherwise exactly that list is posted, and the result is StatusReply of the answer |
| FlatSessions.ExecAndParseTokenPayloadStr | v0.1/golang/sessionslx.go:73-112 | Nil instructions give errInstructionsAreNil with no request sent; otherwise exactly that list is posted, and the result is PayloadReply of the answer |
| FlatSessions.SetSession | v0.1/golang/sessionslx.go:114-151 | A nil payload or a marshal error fails with no request sent. Otherwise exactly [SET, key, json, EX, lifetimeInSeconds] is sent, and the result is InterpretSetReply of its StatusReply. Every false result carries an error |
| FlatSessions.CreateSession | v0.1/golang/sessionslx.go:153-178 | An issuance error is passed through with no request sent. Otherwise the payload is stored with params.Lifetime as its expiry, and the result is never errSessionWasNotStored |
| FlatSessions.VerifySession | v0.1/golang/sessionslx.go:180-215 | If the authority's window and audience check fails, its error is returned and no request is made. Otherwise exactly [GET, key] is sent, and the result is LookupVerdict of the decoded answer |
| FlatSessions.CreateThenVerify | v0.1/golang/sessionslx_test.go:87-114 | When the cache answers both requests as its wire contract says (200 and "OK" for the SET, 200 and the encoded record for the GET), creating a session succeeds. Verifying its token then returns the window error, or the authority's verdict on the stored record. The SET is always sent, the GET only when the window check passes, and the cache afterwards holds the SET's effect |

## Left out

- Network I/O (`http.Post`, reading response bodies, `defer resp.Body.Close()`) is an abstract `Network` value: delivered with a status, or a transport fault.
- A 200 from the modelled cache always carries the body its wire contract prescribes: "OK" for SET and HSET, and the encoding of the value for GET and HGET. So no method run can reach a 200 SET answer other than "OK", the branch at sessionslx.go:146-150. That branch is stated on the reply-reading functions (`FlatSessions.InterpretSetReply`, `FlatSessions.UnacknowledgedStoreFails`), and the `CreateThenVerify` members hold only for a cache that keeps its contract.
- The cache address and the `os.Getenv` globals of sessionsx.go (`LOCAL_CACHE_ADDRESS`, `SESSION_COOKIE_LABEL`) are configuration. One `Cache` object stands for the configured service.
- JSON encoding of the instruction list is modelled as infallible, because `encoding/json` cannot fail on a list of strings and int64 values. The `errJson` branches that follow it are therefore not modelled.
- `json.Marshal`/`json.Unmarshal` of the token payload and `base64.URLEncoding.DecodeString` are library code outside the core. They are function values that may fail, and the premise `DecodesEncoding` says the client's base64 decoding undoes the cache's encoding.
- jwtx (`CreateJWT`, `RetrieveTokenDetails`, `ValidateTokenByWindowAndAud`, `ValidateJWT`) is the external token authority, including its signatures and clock. Its entry points are function values with a `now` argument. `CreateJWT`'s error argument is nil at both call sites, so it is left out.
- `time.Now().Unix()` becomes the parameter `now`.
- `jwtx.TokenPayload` is reduced to its token string, and its claim fields are not modelled. So in the model, the authority's verdict on an unmarshalled stored record can depend only on that record's token. Every lemma states its result as the verdict on `unmarshalPayload(json).payload`, so no proved property rests on this.
- `TokenPayload.Token` is a `*string` in jwtx. It is modelled as a plain string, so the nil dereference at sessionslx.go:133 is not modelled. `CreateJWTParams` is a value, so a nil `params` at sessionslx.go:167 is not modelled either.
- The cache service's enforcement of `EX` and its eviction belong to the cache. `Entry` only records the lifetime. The service is also modelled as accepting any expiry, including 0.
- The unused sentinels `errSuccessfulWrite` and `errNoCookie` are not modelled. Neither is `execAndReturnBool`, which the flat variant's tests call but the shown sources do not define.
- FlatSessions.VerifySession: rejects an expired or foreign-audience token only through the authority's window verdict, because the jwtx checks are abstract. The concrete claims logic is `HashSessions.ClaimsCheck`.
- HashSessions.VerifySession: likewise, its claims checks are whatever the abstract authority decides.
- HashSessions.ValidateTokenWindowAndAud: is stated against the corrected `ClaimsCheck` (exact integer `exp - now`), not the int64 wrap-around. The wrap-around is modelled separately by `ClaimsCheckAsWritten` (see Findings).

## Findings

| source | as written | input that shows it | evidently intended | confidence | as-written member | corrected member |
|---|---|---|---|---|---|---|
| v0.1/golang/sessionsx.go:178-183 | `lifetime := Exp - currentTime` is int64 subtraction and wraps around | exp = -9223372036854775808, now = 1, target in audience, iat <= now, no nbf: the lifetime wraps to 2^63 - 1 > 0, so the token is accepted | reject every token with exp <= now | not executed; follows from Go's defined wrap-around of signed integers | HashSessions.ExpiryWrapAcceptsExpiredToken | HashSessions.ClaimsCheck |
