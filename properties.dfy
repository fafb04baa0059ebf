/** Properties of registration, login and token validation, stated over the
    store contents that the handlers of `Api.ApiServer` are proved to produce. */
module ApiProperties {
  import opened LockedMaps
  import opened Jwt
  import opened Api

  // ---------------------------------------------------------------------------
  // Registration

  /** A taken username is refused with 403 and the first password stays. */
  lemma RegisterDuplicateKeepsFirst(users: map<string, string>, req: UserCreateRequest)
    requires req.username in users
    ensures Register(users, Parsed(req)).reply.status == StatusForbidden
    ensures !Register(users, Parsed(req)).reply.body.success
    ensures Register(users, Parsed(req)).store == users
  {
  }

  /** A new username is stored with its password, no other entry changes, and
      the reply reports success. */
  lemma RegisterNewStores(users: map<string, string>, req: UserCreateRequest)
    requires req.username !in users
    ensures Register(users, Parsed(req)) ==
      Effect(Reply(StatusOK, MessageResponse(true, Text(MsgUserCreated))), users[req.username := req.password])
    ensures forall k :: k != req.username ==> Lookup(Register(users, Parsed(req)).store, k) == Lookup(users, k)
  {
  }

  /** Registering the same name twice: the second attempt fails and the store
      still holds the first password. */
  lemma RegisterTwice(users: map<string, string>, name: string, p1: string, p2: string)
    requires name !in users
    ensures var first := Register(users, Parsed(UserCreateRequest(name, p1)));
            var second := Register(first.store, Parsed(UserCreateRequest(name, p2)));
            second.reply.status == StatusForbidden && second.store == first.store &&
            Lookup(second.store, name) == (p1, true)
  {
  }

  /** An unparsable registration body is a 400 and writes nothing. */
  lemma RegisterBadBody(users: map<string, string>)
    ensures Register(users, Unparsable).reply.status == StatusBadRequest
    ensures Register(users, Unparsable).store == users
  {
  }

  // ---------------------------------------------------------------------------
  // Login

  /** Unknown user or wrong password: 401, and the token store is untouched. */
  lemma IssueRejectsBadCredentials(users: map<string, string>, secrets: map<string, string>,
                                   req: UserCreateRequest, now: int, secret: string)
    requires req.username !in users || users[req.username] != req.password
    ensures Issue(users, secrets, Parsed(req), now, secret) ==
      Effect(Reply(StatusUnauthorized, MessageResponse(false, Text(MsgBadCredentials))), secrets)
  {
  }

  /** Correct credentials: the user's secret becomes a fresh 1024-letter string
      from the alphabet (overwriting any earlier one, other users' secrets kept),
      and the reply is a token with claims name = username and
      expr = now + 604800, signed with that secret. */
  lemma IssueRotatesSecret(users: map<string, string>, secrets: map<string, string>,
                           req: UserCreateRequest, now: int, rng: nat -> LetterIndex)
    requires req.username in users && users[req.username] == req.password
    ensures var secret := RandomString(SecretLength, rng);
            var e := Issue(users, secrets, Parsed(req), now, secret);
            && e.reply.status == StatusOK && e.reply.body.success
            && e.store == secrets[req.username := secret]
            && |secret| == 1024 && (forall i :: 0 <= i < |secret| ==> secret[i] in LetterBytes)
            && (forall k :: k != req.username ==> Lookup(e.store, k) == Lookup(secrets, k))
            && e.reply.body.message == SignedToken(Sign(IssuedClaims(req.username, now), secret))
            && e.reply.body.message.token.claims["name"] == JsonString(req.username)
            && e.reply.body.message.token.claims["expr"] == JsonNumber(now + 604800)
  {
  }

  /** After registering (u, p): logging in with p succeeds, with any other
      password it fails. */
  lemma AuthenticateRegistered(users: map<string, string>, secrets: map<string, string>, u: string,
                               p: string, q: string, now: int, secret: string)
    requires u !in users
    ensures var reg := Register(users, Parsed(UserCreateRequest(u, p))).store;
            Issue(reg, secrets, Parsed(UserCreateRequest(u, p)), now, secret).reply.status == StatusOK &&
            (q != p ==> Issue(reg, secrets, Parsed(UserCreateRequest(u, q)), now, secret).reply.status == StatusUnauthorized)
  {
  }

  // ---------------------------------------------------------------------------
  // Validation

  function Present(t: Token): Body<TokenRequest>
  {
    Parsed(TokenRequest(Decoded(t)))
  }

  /** The claim checks come first: a missing or non-string name, or a user with
      no stored secret, is refused whatever the signature. */
  lemma RejectsWithoutNameOrSecret(secrets: map<string, string>, t: Token, now: int)
    ensures "name" !in t.claims ==> Authorize(secrets, Present(t), now) == Denied(NoName)
    ensures "name" in t.claims && !t.claims["name"].JsonString? ==>
              Authorize(secrets, Present(t), now) == Denied(NoName)
    ensures "name" in t.claims && t.claims["name"].JsonString? && t.claims["name"].s !in secrets ==>
              Authorize(secrets, Present(t), now) == Denied(UnknownUser)
  {
  }

  /** The expiry checks: no expr, a non-numeric expr or one strictly before now
      is refused; expr == now still passes. */
  lemma ExpiryChecks(secrets: map<string, string>, u: string, c: Claims, now: int)
    requires u in secrets && "name" in c && c["name"] == JsonString(u)
    ensures var t := Sign(c, secrets[u]);
            && ("expr" !in c ==> Authorize(secrets, Present(t), now) == Denied(NoExpiry))
            && ("expr" in c && !c["expr"].JsonNumber? ==> Authorize(secrets, Present(t), now) == Denied(Expired))
            && ("expr" in c && c["expr"].JsonNumber? && c["expr"].n < now ==>
                  Authorize(secrets, Present(t), now) == Denied(Expired))
            && ("expr" in c && c["expr"] == JsonNumber(now) ==>
                  Authorize(secrets, Present(t), now) == Forward(CachedPrefix + secrets[u]))
  {
  }

  /** Soundness: an admitted token names a user, verifies under the secret
      stored for that user now, has not expired, and the request is
      rewritten to the cached path under that current secret. */
  lemma AdmittedIsCurrent(secrets: map<string, string>, t: Token, now: int, path: string)
    requires Authorize(secrets, Present(t), now) == Forward(path)
    ensures "name" in t.claims && t.claims["name"].JsonString?
    ensures t.claims["name"].s in secrets
    ensures Verify(t, secrets[t.claims["name"].s])
    ensures t.signature.Hmac? && t.signature.payload == t.claims && t.signature.key == secrets[t.claims["name"].s]
    ensures "expr" in t.claims && t.claims["expr"].JsonNumber? && now <= t.claims["expr"].n
    ensures path == CachedPrefix + secrets[t.claims["name"].s]
  {
  }

  /** The key callback never looks at the algorithm: a token HMAC-signed with
      HS256, HS384 or HS512 under the user's current secret is admitted alike,
      and a non-HMAC signature is refused with the library's own error text. */
  lemma AnyHmacAlgorithmAdmitted(secrets: map<string, string>, u: string, c: Claims, alg: HmacAlg,
                                 failure: string, now: int)
    requires u in secrets && "name" in c && c["name"] == JsonString(u)
    requires "expr" in c && c["expr"].JsonNumber? && now <= c["expr"].n
    ensures Authorize(secrets, Present(Token(c, Hmac(alg, c, secrets[u]))), now) == Forward(CachedPrefix + secrets[u])
    ensures Authorize(secrets, Present(Token(c, OtherSignature(failure))), now) == Denied(BadSignature(failure))
  {
  }

  /** Validation depends on the store only through the named user's entry, so a
      login of one user never changes the verdict on another user's token. */
  lemma VerdictLocalToUser(s1: map<string, string>, s2: map<string, string>, t: Token, now: int)
    requires "name" in t.claims && t.claims["name"].JsonString?
    requires Lookup(s1, t.claims["name"].s) == Lookup(s2, t.claims["name"].s)
    ensures Authorize(s1, Present(t), now) == Authorize(s2, Present(t), now)
  {
  }

  /** A freshly issued token is admitted exactly until its expiry time. */
  lemma IssuedTokenValidates(users: map<string, string>, secrets: map<string, string>,
                             req: UserCreateRequest, now: int, secret: string, later: int)
    requires req.username in users && users[req.username] == req.password
    ensures var e := Issue(users, secrets, Parsed(req), now, secret);
            Authorize(e.store, Present(e.reply.body.message.token), later) ==
              if later <= now + TokenLifetime then Forward(CachedPrefix + secret) else Denied(Expired)
  {
  }

  /** Logging in again invalidates the earlier token: validation reads the
      secret stored now, so a token signed with an overwritten secret fails its
      signature check, while the new token is admitted until it expires. */
  lemma ReissueRevokes(users: map<string, string>, secrets: map<string, string>, req: UserCreateRequest,
                       t1: int, s1: string, t2: int, s2: string, now: int)
    requires req.username in users && users[req.username] == req.password
    requires s1 != s2
    ensures var first := Issue(users, secrets, Parsed(req), t1, s1);
            var second := Issue(users, first.store, Parsed(req), t2, s2);
            && Authorize(second.store, Present(first.reply.body.message.token), now) == Denied(BadSignature(SignatureInvalid))
            && Authorize(second.store, Present(second.reply.body.message.token), now) ==
                 if now <= t2 + TokenLifetime then Forward(CachedPrefix + s2) else Denied(Expired)
  {
    var first := Issue(users, secrets, Parsed(req), t1, s1);
    var second := Issue(users, first.store, Parsed(req), t2, s2);
    assert second.store[req.username] == s2;
    StaleSignatureRefused(second.store, req.username, IssuedClaims(req.username, t1), s1, now);
    IssuedTokenValidates(users, first.store, req, t2, s2, now);
  }

  /** A token for user u signed with a key other than u's stored secret fails
      the signature check. */
  lemma StaleSignatureRefused(secrets: map<string, string>, u: string, c: Claims, key: string, now: int)
    requires u in secrets && secrets[u] != key
    requires "name" in c && c["name"] == JsonString(u)
    ensures Authorize(secrets, Present(Sign(c, key)), now) == Denied(BadSignature(SignatureInvalid))
  {
    VerifySigned(c, key, secrets[u]);
  }

  /** Admission is monotone in time: a token admitted now was admitted at every
      earlier moment against the same store. */
  lemma AdmittedEarlier(secrets: map<string, string>, body: Body<TokenRequest>, now: int, earlier: int)
    requires Authorize(secrets, body, now).Forward?
    requires earlier <= now
    ensures Authorize(secrets, body, earlier) == Authorize(secrets, body, now)
  {
  }

  /** The whole flow: register alice, log in (token T1, admitted), log in again
      with a different secret (token T2): T1 is now refused and T2 admitted. */
  lemma EndToEnd(users: map<string, string>, secrets: map<string, string>, now: int, s1: string, s2: string)
    requires "alice" !in users
    requires s1 != s2
    ensures var req := UserCreateRequest("alice", "secret1");
            var reg := Register(users, Parsed(req));
            var login1 := Issue(reg.store, secrets, Parsed(req), now, s1);
            var t1 := login1.reply.body.message.token;
            var login2 := Issue(reg.store, login1.store, Parsed(req), now, s2);
            var t2 := login2.reply.body.message.token;
            && reg.reply.status == StatusOK
            && login1.reply.status == StatusOK
            && Authorize(login1.store, Present(t1), now).Forward?
            && login2.reply.status == StatusOK
            && t1 != t2
            && Authorize(login2.store, Present(t1), now) == Denied(BadSignature(SignatureInvalid))
            && Authorize(login2.store, Present(t2), now).Forward?
  {
    var req := UserCreateRequest("alice", "secret1");
    var reg := Register(users, Parsed(req));
    IssuedTokenValidates(reg.store, secrets, req, now, s1, now);
    ReissueRevokes(reg.store, secrets, req, now, s1, now, s2, now);
  }

  // ---------------------------------------------------------------------------
  // The middleware's answer

  /** For every request: a refusal is answered and an admitted request is
      passed on, never both; a refusal never reports success; status 400 goes
      exactly to a body that does not parse and every token failure gets 500;
      each failure carries the text the handler or the library gives it. */
  lemma GateReplies(secrets: map<string, string>, body: Body<TokenRequest>, now: int)
    ensures var o := Authorize(secrets, body, now);
            var g := Gate(o);
            && (g.Respond? <==> o.Denied?)
            && (g.Next? ==> g.path == o.path)
            && (g.Respond? ==> !g.reply.body.success)
            && (g.Respond? && g.reply.status == StatusBadRequest <==> body.Unparsable?)
            && (g.Respond? && !body.Unparsable? ==> g.reply.status == StatusInternalServerError)
            && (body.Unparsable? ==> g.reply.body.message == Text(MsgNeedToken))
            && (o == Denied(NoName) ==> g.reply.body.message == Text(MsgNoName))
            && (o == Denied(UnknownUser) ==> g.reply.body.message == Text(MsgUnknownUser))
            && (o == Denied(NoExpiry) ==> g.reply.body.message == Text(MsgNoExpiry))
            && (o == Denied(Expired) ==> g.reply.body.message == Text(MsgExpired))
            && (o.Denied? && o.error.BadSignature? ==> g.reply.body.message == Text(o.error.reason))
            && (o.Denied? && o.error.MalformedToken? ==> g.reply.body.message == Text(o.error.reason))
  {
  }

  /** A token that cannot be decoded is refused with the library's reason. */
  lemma UndecodableRefused(secrets: map<string, string>, reason: string, now: int)
    ensures Gate(Authorize(secrets, Parsed(TokenRequest(Undecodable(reason))), now)) ==
      Respond(Reply(StatusInternalServerError, MessageResponse(false, Text(reason))))
  {
  }
}
