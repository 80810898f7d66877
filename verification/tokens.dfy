/** Token issuance and checking (src/handlers.rs, `sign_jwt` and
    `verify_jwt`). A token carries the claim `{id, phone, expiration}` and an
    HMAC-SHA256 tag over it under the process's key. HMAC is the parameter
    `mac`; the model relies only on it being a function. The JWT string
    encoding of the pair is not modelled: a token is the pair itself. */
module Tokens {
  import opened Wrappers
  import opened Credentials

  datatype Claim = Claim(id: string, phone: string, expiration: int)

  /** HMAC-SHA256 over the serialised claim, keyed with the given key. */
  type Mac = (string, Claim) -> Digest

  datatype Token = Token(claim: Claim, tag: Digest)

  /** `sign_with_key`: tag the claim under the key. */
  function SignWithKey(mac: Mac, claim: Claim, key: string): (t: Token)
    ensures t.claim == claim
    ensures VerifyWithKey(mac, t, key) == Some(claim)
  {
    Token(claim, mac(key, claim))
  }

  /** `verify_with_key`: the claim, when the tag is the one the key gives. */
  function VerifyWithKey(mac: Mac, token: Token, key: string): (r: Option<Claim>)
    ensures r.Some? <==> token.tag == mac(key, token.claim)
    ensures r.Some? ==> r.value == token.claim
  {
    if token.tag == mac(key, token.claim) then Some(token.claim) else None
  }

  /** `sign_jwt`: a claim for the account that expires `exp` seconds after `now`. */
  function SignJwt(mac: Mac, id: string, phone: string, exp: int, key: string, now: int): (t: Token)
    ensures t.claim == Claim(id, phone, now + exp)
    ensures VerifyWithKey(mac, t, key) == Some(t.claim)
    ensures forall later :: VerifyJwt(mac, t, key, later) <==> later < now + exp
  {
    SignWithKey(mac, Claim(id, phone, now + exp), key)
  }

  /** `verify_jwt`: true only for an authentic token whose expiration is
      still strictly in the future. */
  function VerifyJwt(mac: Mac, token: Token, key: string, now: int): (ok: bool)
    ensures ok <==> token.tag == mac(key, token.claim) && token.claim.expiration > now
  {
    match VerifyWithKey(mac, token, key)
    case None => false
    case Some(c) => if c.expiration <= now then false else true
  }

  /** A token signed at `signedAt` with validity `exp` carries the account's
      id and phone and the expiration `signedAt + exp`, and verifies under the
      same key exactly while `now < signedAt + exp`; so with `exp > 0` it
      verifies at the moment it is issued. */
  lemma SignThenVerify(mac: Mac, id: string, phone: string, exp: int, key: string, signedAt: int, now: int)
    ensures VerifyWithKey(mac, SignJwt(mac, id, phone, exp, key, signedAt), key) == Some(Claim(id, phone, signedAt + exp))
    ensures VerifyJwt(mac, SignJwt(mac, id, phone, exp, key, signedAt), key, now) <==> now < signedAt + exp
    ensures exp > 0 ==> VerifyJwt(mac, SignJwt(mac, id, phone, exp, key, signedAt), key, signedAt)
  {
  }

  /** No un-expiry: a token that fails verification because of time fails at
      every later time too, and one that fails for any reason at `now` fails
      at every later time. */
  lemma ExpiredStaysExpired(mac: Mac, token: Token, key: string, now: int, later: int)
    requires now <= later
    ensures !VerifyJwt(mac, token, key, now) ==> !VerifyJwt(mac, token, key, later)
  {
  }
}
