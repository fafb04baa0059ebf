# Login service: stores, registration, token issue and token validation

This project models the core of the login server in `loginprojekt/server`.
The server keeps two string-to-string tables behind read/write locks:

- `data` maps each username to its password;
- `tokens` maps each username to the user's current token secret.

It offers three request paths:

- **`/createuser`** registers a user. A username that is already taken is refused.
- **`/generatetoken`** logs a user in. It checks the password, draws a fresh
  1024-letter secret, stores it as the user's secret (this overwrites the old
  one) and returns a JWT. The token carries the claims `name` and `expr`
  (now plus seven days) and is signed with HS256 under that secret.
- **`authWare`** guards `/time`. It reads the `name` claim and fetches that
  user's current secret. It checks the signature under that secret, then checks
  that `expr` is not before now. If all checks pass, it rewrites the request to
  `/api/v1/time/cached/<secret>`. The signature check uses whichever HMAC
  algorithm the token header names; the key callback does not restrict it.

User secrets are rotated on every login. Validation always reads the secret
stored at that moment, so a new login revokes every earlier token of that user.

Files and modules:

- `locked_map.dfy`, module `LockedMaps`: the locked table. It is the class
  `LockedMap`, with its map as a field and `Get`/`Put`/`Delete` as methods.
  The module also gives the serialised meaning of a sequence of writes:
  last writer wins, and writes to distinct keys commute.
- `jwt.dfy`, module `Jwt`: claims, tokens, and symbolic HMAC signatures
  (RFC 7519 tokens; HS256, HS384 and HS512 from section 3.2 of RFC 7518).
- `api_server.dfy`, module `Api`: `RandStringBytes` and the handlers.
  The handlers are methods of `ApiServer` over the two stores. Each method is
  proved equal to a pure decision function: `Register`, `Issue` or `Authorize`.
  The module also holds store loading at start-up.
- `properties.dfy`, module `ApiProperties`: the properties of those decision
  functions. These cover registration, authentication, secret rotation, expiry
  and an end-to-end scenario.

Inputs that the source gets from its environment are parameters here:

- The current Unix time is the integer `now`.
- The generator `math/rand` is an oracle `rng: nat -> LetterIndex`. `rng(i)` is
  the value the i-th call of `rand.Intn(62)` returns.
- A request body is `Body<T>`: either `Unparsable` (the body parser failed) or
  the parsed record.
- A presented token is what the JWT library decodes it to.
- A store file is what the file system offers: `StoreFile`.

Three behaviours of the code a reader might not expect:

- An empty username or password is accepted at registration. The body parser
  leaves absent fields as `""`, and the handler does not check for them.
- Any `os.Stat` failure, not only a missing file, makes the loader start from
  an empty table without an error.
- Token failures in `authWare` answer status 500 (internal server error), not an authorisation status. Only a body
  that cannot be parsed answers 400. The reply text distinguishes "no name",
  "unknown user", a bad signature and expiry (`Api.DenialReply`).

## Model

| member | source | states |
|---|---|---|
| `LockedMaps.LockedMap.constructor` | loginprojekt/server/LockedMap.go:10-14 | a new table has no entries |
| `LockedMaps.NewIsEmpty` | loginprojekt/server/LockedMap.go:10-14 | a lookup in the new, empty table answers ("", false) for every key |
| `LockedMaps.LockedMap.Get` | loginprojekt/server/LockedMap.go:16-21 | returns (value, true) for a present key and ("", false) for an absent one; it changes nothing (no modifies clause) |
| `LockedMaps.LockedMap.Put` | loginprojekt/server/LockedMap.go:23-27 | the key now maps to the value (a Get returns (v, true)); every other key looks up as before |
| `LockedMaps.LockedMap.Delete` | loginprojekt/server/LockedMap.go:29-33 | the key is then absent; every other key is unchanged; deleting an absent key leaves the table as it was |
| `LockedMaps.PutTwice` | loginprojekt/server/LockedMap.go:26 | a second Put on a key replaces the first one (last writer wins) |
| `LockedMaps.LockedMap.Replay` | loginprojekt/server/LockedMap.go:23-33 | issuing a sequence of writes one after another through Put and Delete leaves the table equal to Run of that sequence on the old table |
| `LockedMaps.RunLastWriterWins` | loginprojekt/server/LockedMap.go:16-33 | after any serialised sequence of Puts and Deletes, a Get on a key sees the last Put's value, "absent" when a Delete on it came last, and the initial entry when nothing touched it |
| `LockedMaps.DisjointWritesCommute` | loginprojekt/server/LockedMap.go:23-33 | two batches of writes on disjoint keys give the same table in either order, so no update on a distinct key is lost |
| `Jwt.Sign` | loginprojekt/server/apiserver.go:180-184 | a token signed over some claims carries exactly those claims, with an HS256 signature |
| `Jwt.VerifySigned` | loginprojekt/server/apiserver.go:83-105 | a signed token verifies under a key if and only if that key signed it |
| `Jwt.VerifyAnyHmac` | loginprojekt/server/apiserver.go:83-105 | a token HMAC-signed over its own claims with HS256, HS384 or HS512 verifies under the signing key; a non-HMAC signature verifies under no key |
| `Jwt.TamperedFails` | loginprojekt/server/apiserver.go:83-105 | changing the claims of a signed token makes it fail under every key |
| `Api.RandomString` | loginprojekt/server/apiserver.go:40-48 | the secret has length n, character i is the letter at the i-th generator draw, and every character is in letterBytes |
| `Api.RandStringBytes` | loginprojekt/server/apiserver.go:42-48 | filling the n-byte buffer in its loop produces exactly RandomString(n, rng) |
| `Api.ApiServer.constructor` | loginprojekt/server/apiserver.go:54-64 | the server holds the loaded user store and token store, and they are two distinct tables |
| `Api.ApiServer.CreateUser` | loginprojekt/server/apiserver.go:149-163 | the reply and the new user table are those of Register on the old table; the token table is unchanged |
| `Api.ApiServer.GenerateToken` | loginprojekt/server/apiserver.go:165-193 | the reply and the new token table are those of Issue on the user table and the old token table, with RandomString(1024, rng) as the new secret; the user table is unchanged |
| `Api.ApiServer.AuthWare` | loginprojekt/server/apiserver.go:76-128 | the answer, computed with two reads of the token table, is Gate of Authorize over the token table's current contents: the denial reply for a refusal, or passing the request on to the rewritten path |
| `Api.LoadUserData` | loginprojekt/server/apiserver.go:220-235 | a failing os.Stat gives a fresh empty table and no error; an open failure gives an empty table and that error; a decodable file gives its contents; a decode failure gives that error |
| `Api.StartStores` | loginprojekt/server/apiserver.go:50-64 | the users file is loaded first, then the tokens file; the first load error stops start-up and is the reported error, whether it is the users file's or the tokens file's; otherwise the server holds the two loaded tables as distinct objects |
| `ApiProperties.RegisterDuplicateKeepsFirst` | loginprojekt/server/apiserver.go:156-159 | registering a taken username answers 403 without success and leaves the user table unchanged, so the first password stays |
| `ApiProperties.RegisterNewStores` | loginprojekt/server/apiserver.go:160-162 | registering a new username answers 200 with success and stores username to password; no other entry changes |
| `ApiProperties.RegisterTwice` | loginprojekt/server/apiserver.go:156-162 | registering the same name twice: the second attempt answers 403 and the table still maps the name to the first password |
| `ApiProperties.RegisterBadBody` | loginprojekt/server/apiserver.go:151-154 | an unparsable registration body answers 400 and writes nothing |
| `ApiProperties.IssueRejectsBadCredentials` | loginprojekt/server/apiserver.go:172-175 | an unknown user or a wrong password answers 401 and leaves the token table untouched |
| `ApiProperties.IssueRotatesSecret` | loginprojekt/server/apiserver.go:177-182 | correct credentials store a 1024-character secret over letterBytes for the user (overwriting any earlier one, other users unchanged); the token has name = username and expr = now + 604800 and is signed with that secret |
| `ApiProperties.AuthenticateRegistered` | loginprojekt/server/apiserver.go:160-175 | after registering (u, p), logging in with p succeeds and logging in with any other password answers 401 |
| `ApiProperties.RejectsWithoutNameOrSecret` | loginprojekt/server/apiserver.go:90-102 | a token whose name claim is missing or not a string is refused as NoName; a token whose user has no stored secret is refused as UnknownUser, whatever the signature |
| `ApiProperties.ExpiryChecks` | loginprojekt/server/apiserver.go:112-125 | a correctly signed token with no expr is refused; one whose expr is not a number or is strictly before now is refused as expired; expr == now is still admitted, rewritten to the cached path under the current secret |
| `ApiProperties.AdmittedIsCurrent` | loginprojekt/server/apiserver.go:99-125 | an admitted token names a user, verifies (an HMAC over its own claims, any of the three algorithms) under that user's secret as stored now, has not expired, and the rewritten path ends in that current secret |
| `ApiProperties.AnyHmacAlgorithmAdmitted` | loginprojekt/server/apiserver.go:83-125 | a token for a stored user with an unexpired expr is admitted when HMAC-signed under the current secret with any of HS256, HS384, HS512; a non-HMAC signature is refused with the library's error text |
| `ApiProperties.VerdictLocalToUser` | loginprojekt/server/apiserver.go:99-123 | the verdict depends on the token table only through the named user's entry, so one user's login never changes the verdict on another user's token |
| `ApiProperties.IssuedTokenValidates` | loginprojekt/server/apiserver.go:112-125 | a freshly issued token is admitted, with the path under the new secret, exactly while now <= issue time + 604800, and refused as expired afterwards |
| `ApiProperties.StaleSignatureRefused` | loginprojekt/server/apiserver.go:99-110 | a token for a user signed with a key other than the user's stored secret fails the signature check |
| `ApiProperties.ReissueRevokes` | loginprojekt/server/apiserver.go:99-104 | after a second login draws a different secret, the first token fails its signature check and the second is admitted until it expires |
| `ApiProperties.AdmittedEarlier` | loginprojekt/server/apiserver.go:118 | admission is monotone in time: a token admitted at now gets the same verdict at any earlier time against the same store |
| `ApiProperties.EndToEnd` | loginprojekt/server/apiserver.go:149-193 | register alice, log in (T1 is admitted), log in again with a different secret (T2 differs from T1): T1 is then refused for a bad signature and T2 is admitted |

| `ApiProperties.GateReplies` | loginprojekt/server/apiserver.go:76-127 | for every request: a refusal is answered and an admitted request is passed on to its path, never both; no refusal reports success; 400 goes exactly to an unparsable body and every token failure gets 500; each refusal carries its text (the token hint, the callback's messages, the library's reason, the expiry messages) |
| `ApiProperties.UndecodableRefused` | loginprojekt/server/apiserver.go:107-110 | a token the library cannot decode is answered 500 without success and with the library's reason as the message |

## Left out

- The lock (`sync.RWMutex`), the goroutines and channels, the check-then-put race in `/createuser` and concurrent logins for one user. Each table operation is modelled as running alone, and concurrent callers are modelled by the serialised runs of `LockedMaps.LockedMap.Replay`, which applies a write sequence through the class's own Put and Delete.
- Fiber routing, the body parser's JSON decoding, the JSON responses, and the logger, CORS, rate-limiter and response-cache middleware. Requests come in as parsed values and replies go out as `Reply` values.
- The protected `/time` handler: a two-second sleep and then the current time. The model stops at the rewritten path.
- The JWT library's internals: base64/JSON encoding, header parsing, algorithm lookup, and HMAC-SHA256/384/512. The signature is a symbolic term `Hmac(alg, claims, key)`. So a signature verifies under exactly the key that made it, which idealises HMAC as collision-free. The header itself is not part of the signed payload in the model.
- The token string round trip. The client is assumed to send back the token it received, and the library's decoding of that string is an input (`PresentedToken`). Only a token whose header or claims cannot be decoded, or whose header names no known algorithm, is `Undecodable` with the library's reason; those fail before the key callback runs. A token with a known non-HMAC algorithm (`none`, RS256 and the like), or with a signature segment that is not valid base64, is `Decoded` with `OtherSignature`. The key callback runs on it first, and its signature is refused afterwards with the library's text.
- The `t.Claims.(jwt.MapClaims)` check in the key callback. `jwt.Parse` always produces map claims, so that branch cannot be taken.
- The library's own checks of the registered claims `exp`, `iat` and `nbf`. Tokens minted here carry none of them.
- The library's exact error texts. A mismatching HMAC gives `BadSignature("signature is invalid")`; any other signature failure gives `BadSignature` with the text carried by `OtherSignature`.
- The `SignedString` error branch. Signing claims of a string and a number with a byte key cannot fail, so `Jwt.Sign` is total.
- The `float64` type of `expr`. Expiry times are whole seconds (`int`), so fractional times are not modelled.
- `rand.Seed(time.Now().UnixNano())` and the quality of `math/rand`. The generator is the oracle `rng`, one oracle per request.
- Api.LoadUserData: on a decode failure the model's table is left unconstrained. gob may leave a partly decoded table, and the caller discards it.
- gob encoding and `saveUserData`. The deferred save runs as soon as the server start function returns, not at shutdown. The stop goroutine saves only the user table. Neither path is modelled.
- `createMessageResponse`: it is the constructor `Api.MessageResponse`.
