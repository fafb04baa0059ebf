/** The request handlers of the login API server with the HTTP layer stripped
    off: each handler takes the parsed request body (or the parse failure), the
    current Unix time in seconds and, where it draws random letters, an oracle
    for the generator; it answers with a status code and a message response and
    updates the user store `data` or the token store `tokens`. */
module Api {
  import opened LockedMaps
  import opened Jwt

  // ---------------------------------------------------------------------------
  // Random secrets

  /** The alphabet of generated secrets: 26 lower-case letters, 26 upper-case
      letters and the ten digits. */
  const LetterBytes: string := "abcdefghijklmnopqrstuvwxyzABCDEFGHIJKLMNOPQRSTUVWXYZ0192384765"

  /** A value `rand.Intn(len(letterBytes))` can return. */
  type LetterIndex = i: int | 0 <= i < |LetterBytes|

  /** The string whose i-th character is the letter at the i-th draw of `rng`. */
  function RandomString(n: nat, rng: nat -> LetterIndex): (s: string)
    ensures |s| == n
    ensures forall i :: 0 <= i < n ==> s[i] == LetterBytes[rng(i)]
    ensures forall i :: 0 <= i < n ==> s[i] in LetterBytes
  {
    if n == 0 then "" else RandomString(n - 1, rng) + [LetterBytes[rng(n - 1)]]
  }

  /** Fills a fresh buffer of length `n`, position by position, with letters
      picked by the generator; `rng(i)` is the generator's i-th answer. */
  method RandStringBytes(n: nat, rng: nat -> LetterIndex) returns (s: string)
    ensures s == RandomString(n, rng)
  {
    var b := new char[n];
    for i := 0 to n
      invariant b[..i] == RandomString(i, rng)
    {
      b[i] := LetterBytes[rng(i)];
      assert b[..i + 1] == b[..i] + [b[i]];
    }
    assert b[..] == b[..n];
    s := b[..];
  }

  // ---------------------------------------------------------------------------
  // Requests and responses

  const StatusOK := 200
  const StatusBadRequest := 400
  const StatusUnauthorized := 401
  const StatusForbidden := 403
  const StatusInternalServerError := 500

  const MsgNeedCredentials := "Es wird ein username und password benötigt"
  const MsgUserExists := "Dieser user existiert bereits."
  const MsgUserCreated := "Der user wurde erstellt"
  const MsgBadCredentials := "Ungültige nutzer daten."
  const MsgNeedToken := "Hierzu brauchst du ein token!"
  const MsgNoName := "kein name im token definiert"
  const MsgUnknownUser := "der user existiert nicht"
  const MsgNoExpiry := "Kein gültiges ablauf datum"
  const MsgExpired := "Der token ist abgelaufen"

  /** The outcome of the framework's body parser: a failure, or the decoded
      record (fields the client left out decode to ""). */
  datatype Body<T> = Unparsable | Parsed(value: T)

  datatype UserCreateRequest = UserCreateRequest(username: string, password: string)

  /** The token string as the signing library decodes it before calling the
      key callback: either the header or the claims cannot be decoded, or the
      header names no known algorithm (with the library's reason), or it yields
      a token whose signature is checked after the callback. */
  datatype PresentedToken = Undecodable(reason: string) | Decoded(token: Token)

  datatype TokenRequest = TokenRequest(token: PresentedToken)

  /** A response message: plain text, or the serialised signed token. */
  datatype Message = Text(text: string) | SignedToken(token: Token)

  /** createMessageResponse(success, msg) is the constructor MessageResponse. */
  datatype MessageResponse = MessageResponse(success: bool, message: Message)

  datatype Reply = Reply(status: int, body: MessageResponse)

  /** A reply together with the contents of the store the handler may write. */
  datatype Effect = Effect(reply: Reply, store: map<string, string>)

  // ---------------------------------------------------------------------------
  // /createuser

  /** Registration: a duplicate username is refused with 403 and nothing is
      written; otherwise the pair is stored and the reply is 200. */
  function Register(users: map<string, string>, body: Body<UserCreateRequest>): Effect
  {
    match body
    case Unparsable =>
      Effect(Reply(StatusBadRequest, MessageResponse(false, Text(MsgNeedCredentials))), users)
    case Parsed(req) =>
      if req.username in users then
        Effect(Reply(StatusForbidden, MessageResponse(false, Text(MsgUserExists))), users)
      else
        Effect(Reply(StatusOK, MessageResponse(true, Text(MsgUserCreated))),
               users[req.username := req.password])
  }

  // ---------------------------------------------------------------------------
  // /generatetoken

  const SecretLength := 1024
  /** Seven days, in seconds. */
  const TokenLifetime := 7 * 24 * 60 * 60

  /** The claims of a token minted at time `now`. */
  function IssuedClaims(username: string, now: int): Claims
  {
    map["expr" := JsonNumber(now + TokenLifetime), "name" := JsonString(username)]
  }

  /** The stored password exists and equals the supplied one. */
  predicate CredentialsMatch(users: map<string, string>, req: UserCreateRequest)
  {
    Lookup(users, req.username) == (req.password, true)
  }

  /** Login: wrong credentials give 401 and leave the secrets alone; otherwise
      `secret`, the freshly generated string, replaces the user's secret and the
      reply carries the claims signed with it. */
  function Issue(users: map<string, string>, secrets: map<string, string>,
                 body: Body<UserCreateRequest>, now: int, secret: string): Effect
  {
    match body
    case Unparsable =>
      Effect(Reply(StatusBadRequest, MessageResponse(false, Text(MsgNeedCredentials))), secrets)
    case Parsed(req) =>
      if !CredentialsMatch(users, req) then
        Effect(Reply(StatusUnauthorized, MessageResponse(false, Text(MsgBadCredentials))), secrets)
      else
        Effect(Reply(StatusOK, MessageResponse(true, SignedToken(Sign(IssuedClaims(req.username, now), secret)))),
               secrets[req.username := secret])
  }

  // ---------------------------------------------------------------------------
  // authWare

  /** Why a protected request is refused. */
  datatype AuthError =
    | MissingToken            // the body does not parse
    | MalformedToken(reason: string)
    | NoName                  // no "name" claim, or it is not a string
    | UnknownUser             // no secret stored for the named user
    | BadSignature(reason: string)  // the signature fails under the stored secret
    | NoExpiry                // no "expr" claim
    | Expired                 // "expr" is not a number, or lies before now

  datatype AuthOutcome = Denied(error: AuthError) | Forward(path: string)

  /** The internal route a validated request is rewritten to (as a GET). */
  const CachedPrefix := "/api/v1/time/cached/"

  /** The validation chain over the token store as it is at validation time. */
  function Authorize(secrets: map<string, string>, body: Body<TokenRequest>, now: int): AuthOutcome
  {
    match body
    case Unparsable => Denied(MissingToken)
    case Parsed(TokenRequest(Undecodable(reason))) => Denied(MalformedToken(reason))
    case Parsed(TokenRequest(Decoded(t))) =>
      if "name" !in t.claims || !t.claims["name"].JsonString? then Denied(NoName)
      else if t.claims["name"].s !in secrets then Denied(UnknownUser)
      else if !Verify(t, secrets[t.claims["name"].s]) then
        Denied(BadSignature(VerifyFailure(t, secrets[t.claims["name"].s])))
      else if "expr" !in t.claims then Denied(NoExpiry)
      else if !t.claims["expr"].JsonNumber? || t.claims["expr"].n < now then Denied(Expired)
      else Forward(CachedPrefix + secrets[t.claims["name"].s])
  }

  /** The response sent back for a refused protected request: never a success,
      400 when there is no parsable body and 500 for every token problem. */
  function DenialReply(e: AuthError): (r: Reply)
    ensures !r.body.success
    ensures r.status == (if e == MissingToken then StatusBadRequest else StatusInternalServerError)
  {
    var msg :=
      match e
      case MissingToken => MsgNeedToken
      case MalformedToken(reason) => reason
      case NoName => MsgNoName
      case UnknownUser => MsgUnknownUser
      case BadSignature(reason) => reason
      case NoExpiry => MsgNoExpiry
      case Expired => MsgExpired;
    Reply(if e == MissingToken then StatusBadRequest else StatusInternalServerError,
          MessageResponse(false, Text(msg)))
  }

  /** What the middleware does with a request: answer it at once, or pass it
      on (c.Next) as a GET to the rewritten path. */
  datatype GateResult = Respond(reply: Reply) | Next(path: string)

  /** A refusal is answered with its denial reply; an admitted request goes on. */
  function Gate(o: AuthOutcome): GateResult
  {
    match o
    case Denied(e) => Respond(DenialReply(e))
    case Forward(path) => Next(path)
  }

  // ---------------------------------------------------------------------------
  // The server and its two stores

  class ApiServer {
    /** username to password */
    const data: LockedMap
    /** username to current token secret */
    const tokens: LockedMap

    ghost predicate Valid()
      reads this
    {
      data != tokens
    }

    constructor (data: LockedMap, tokens: LockedMap)
      requires data != tokens
      ensures this.data == data && this.tokens == tokens
      ensures Valid()
    {
      this.data := data;
      this.tokens := tokens;
    }

    method CreateUser(body: Body<UserCreateRequest>) returns (reply: Reply)
      requires Valid()
      modifies data
      ensures Effect(reply, data.Map) == Register(old(data.Map), body)
      ensures tokens.Map == old(tokens.Map)
    {
      match body {
        case Unparsable =>
          reply := Reply(StatusBadRequest, MessageResponse(false, Text(MsgNeedCredentials)));
        case Parsed(req) =>
          var _, ok := data.Get(req.username);
          if ok {
            reply := Reply(StatusForbidden, MessageResponse(false, Text(MsgUserExists)));
          } else {
            data.Put(req.username, req.password);
            reply := Reply(StatusOK, MessageResponse(true, Text(MsgUserCreated)));
          }
      }
    }

    method GenerateToken(body: Body<UserCreateRequest>, now: int, rng: nat -> LetterIndex)
      returns (reply: Reply)
      requires Valid()
      modifies tokens
      ensures Effect(reply, tokens.Map) == Issue(data.Map, old(tokens.Map), body, now, RandomString(SecretLength, rng))
      ensures data.Map == old(data.Map)
    {
      match body {
        case Unparsable =>
          reply := Reply(StatusBadRequest, MessageResponse(false, Text(MsgNeedCredentials)));
        case Parsed(req) =>
          var pass, ok := data.Get(req.username);
          if !ok || pass != req.password {
            reply := Reply(StatusUnauthorized, MessageResponse(false, Text(MsgBadCredentials)));
          } else {
            var secret := RandStringBytes(SecretLength, rng);
            tokens.Put(req.username, secret);
            var token := Sign(IssuedClaims(req.username, now), secret);
            reply := Reply(StatusOK, MessageResponse(true, SignedToken(token)));
          }
      }
    }

    /** The middleware in front of /time: the key lookup inside the parser's
        key callback, the expiry check, then a second lookup of the secret to
        build the rewritten path. */
    method AuthWare(body: Body<TokenRequest>, now: int) returns (result: GateResult)
      ensures result == Gate(Authorize(tokens.Map, body, now))
    {
      match body {
        case Unparsable =>
          return Respond(DenialReply(MissingToken));
        case Parsed(TokenRequest(Undecodable(reason))) =>
          return Respond(DenialReply(MalformedToken(reason)));
        case Parsed(TokenRequest(Decoded(t))) =>
          // the key callback
          if "name" !in t.claims || !t.claims["name"].JsonString? {
            return Respond(DenialReply(NoName));
          }
          var name := t.claims["name"].s;
          var key, ok := tokens.Get(name);
          if !ok {
            return Respond(DenialReply(UnknownUser));
          }
          // the library's signature check under the returned key
          if !Verify(t, key) {
            return Respond(DenialReply(BadSignature(VerifyFailure(t, key))));
          }
          // the expiry check
          if "expr" !in t.claims {
            return Respond(DenialReply(NoExpiry));
          }
          var date := t.claims["expr"];
          if !date.JsonNumber? || date.n < now {
            return Respond(DenialReply(Expired));
          }
          var secret, _ := tokens.Get(name);
          return Next(CachedPrefix + secret);
      }
    }
  }

  // ---------------------------------------------------------------------------
  // Loading a store at start-up

  /** What the file system offers for a store file: os.Stat fails (the file is
      absent or cannot be examined), it cannot be opened, or it decodes to a
      table or fails to decode. */
  datatype StoreFile =
    | StatFails
    | OpenFails(openError: string)
    | Decodes(contents: map<string, string>)
    | DecodeFails(decodeError: string)

  datatype LoadResult = Loaded | LoadFailed(message: string)

  /** loadUserData: the first run (no file) starts from an empty table without
      error; a file that cannot be opened or decoded reports the error. On a
      decode error the table may hold whatever was decoded before the error. */
  method LoadUserData(file: StoreFile) returns (mp: LockedMap, err: LoadResult)
    ensures fresh(mp)
    ensures file.StatFails? ==> mp.Map == map[] && err == Loaded
    ensures file.OpenFails? ==> mp.Map == map[] && err == LoadFailed(file.openError)
    ensures file.Decodes? ==> mp.Map == file.contents && err == Loaded
    ensures file.DecodeFails? ==> err == LoadFailed(file.decodeError)
  {
    mp := new LockedMap();
    match file {
      case StatFails =>
        err := Loaded;
      case OpenFails(e) =>
        err := LoadFailed(e);
      case Decodes(contents) =>
        mp.Map := contents;
        err := Loaded;
      case DecodeFails(e) =>
        err := LoadFailed(e);
    }
  }

  /** The start of StartAPIServer: load the user store, then the token store;
      the first load error stops the start-up and is reported. */
  method StartStores(userFile: StoreFile, tokenFile: StoreFile) returns (server: ApiServer?, err: LoadResult)
    ensures err.LoadFailed? <==> server == null
    ensures userFile.OpenFails? || userFile.DecodeFails? ==> server == null && err == LoadFailed(
      if userFile.OpenFails? then userFile.openError else userFile.decodeError)
    ensures (userFile.StatFails? || userFile.Decodes?) && (tokenFile.OpenFails? || tokenFile.DecodeFails?) ==>
      server == null && err == LoadFailed(if tokenFile.OpenFails? then tokenFile.openError else tokenFile.decodeError)
    ensures server != null ==> fresh(server) && fresh(server.data) && fresh(server.tokens) && server.Valid()
    ensures server != null && userFile.Decodes? ==> server.data.Map == userFile.contents
    ensures server != null && userFile.StatFails? ==> server.data.Map == map[]
    ensures server != null && tokenFile.Decodes? ==> server.tokens.Map == tokenFile.contents
    ensures server != null && tokenFile.StatFails? ==> server.tokens.Map == map[]
    ensures err == Loaded <==>
      (userFile.StatFails? || userFile.Decodes?) && (tokenFile.StatFails? || tokenFile.Decodes?)
  {
    var data, e1 := LoadUserData(userFile);
    if e1.LoadFailed? {
      return null, e1;
    }
    var tokens, e2 := LoadUserData(tokenFile);
    if e2.LoadFailed? {
      return null, e2;
    }
    server := new ApiServer(data, tokens);
    err := Loaded;
  }
}
