/** The part of a JSON Web Token (RFC 7519) signed with an HMAC algorithm
    (HS256, HS384 or HS512, section 3.2 of RFC 7518) that the login service
    relies on. The signing library is not part of this model: an HMAC is a
    symbolic term that records the algorithm, what was signed and with which
    key, so a signature verifies under exactly the key that made it (an
    idealised, collision-free MAC). */
module Jwt {

  /** A decoded claim value. JSON numbers are whole seconds here. */
  datatype Claim = JsonString(s: string) | JsonNumber(n: int) | JsonOther

  type Claims = map<string, Claim>

  /** The HMAC algorithms the library accepts with a byte-string key. */
  datatype HmacAlg = HS256 | HS384 | HS512

  /** The signature part of a token: an HMAC over the claims under a key, or a
      signature the library refuses under every byte-string key, with the
      library's error text (a known non-HMAC algorithm such as "none" or RS256,
      or a signature segment that is not valid base64). */
  datatype Signature = Hmac(alg: HmacAlg, payload: Claims, key: string) | OtherSignature(failure: string)

  datatype Token = Token(claims: Claims, signature: Signature)

  /** The library's error text for an HMAC that does not match. */
  const SignatureInvalid := "signature is invalid"

  /** SignedString with SigningMethodHS256: signing cannot fail for a byte key. */
  function Sign(claims: Claims, key: string): (t: Token)
    ensures t.claims == claims
    ensures t.signature.Hmac? && t.signature.alg == HS256
  {
    Token(claims, Hmac(HS256, claims, key))
  }

  /** The library's signature check under `key`, with whichever HMAC algorithm
      the token header names. */
  predicate Verify(t: Token, key: string)
  {
    t.signature.Hmac? && t.signature.payload == t.claims && t.signature.key == key
  }

  /** The text of the library's error for a token that fails `Verify`. */
  function VerifyFailure(t: Token, key: string): (msg: string)
    requires !Verify(t, key)
    ensures t.signature.Hmac? ==> msg == SignatureInvalid
  {
    match t.signature
    case Hmac(_, _, _) => SignatureInvalid
    case OtherSignature(failure) => failure
  }

  /** A token verifies under a key exactly when it was signed with that key. */
  lemma VerifySigned(claims: Claims, key: string, other: string)
    ensures Verify(Sign(claims, key), other) <==> other == key
  {
  }

  /** A token HMAC-signed over its own claims with any of the three algorithms
      verifies under the signing key; a non-HMAC signature verifies under none. */
  lemma VerifyAnyHmac(claims: Claims, alg: HmacAlg, key: string, failure: string, any: string)
    ensures Verify(Token(claims, Hmac(alg, claims, key)), key)
    ensures !Verify(Token(claims, OtherSignature(failure)), any)
  {
  }

  /** Verification is tied to the signed content: altering the claims of a
      signed token makes it fail under every key. */
  lemma TamperedFails(claims: Claims, key: string, forged: Claims, any: string)
    requires forged != claims
    ensures !Verify(Token(forged, Sign(claims, key).signature), any)
  {
  }
}
