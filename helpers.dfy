/** The bcrypt oracle behind `hashPassword` and `verifyPassword`.

    bcrypt itself is a foreign library; it is modelled as an idealised hash
    that remembers its salt and what it was computed from. bcrypt only looks
    at the first 72 bytes of a password, so the model keeps only the first
    72 characters: two passwords that agree there are indistinguishable. */
module Passwords {

  /** The cost factor passed to `bcrypt.hash`. */
  const SaltRounds := 10

  /** How much of a password bcrypt reads. */
  const MaxPasswordLength := 72

  /** A stored hash: cost, random salt, and the part of the password it covers. */
  datatype PasswordHash = Bcrypt(cost: nat, salt: string, covered: string)

  /** The part of a password that bcrypt reads. */
  function Covered(password: string): (c: string)
    ensures |c| <= MaxPasswordLength
    ensures c <= password
    ensures |password| <= MaxPasswordLength ==> c == password
    ensures |password| > MaxPasswordLength ==> |c| == MaxPasswordLength
  {
    if |password| <= MaxPasswordLength then password else password[..MaxPasswordLength]
  }

  /** `hashPassword(password)`: `bcrypt.hash(password, 10)`; the salt it draws is a parameter. */
  function HashPassword(password: string, salt: string): (h: PasswordHash)
    ensures h.cost == SaltRounds && h.salt == salt
  {
    Bcrypt(SaltRounds, salt, Covered(password))
  }

  /** `verifyPassword(password, hash)`: `bcrypt.compare`, which recomputes the
      hash with the stored salt and compares. */
  function VerifyPassword(password: string, hash: PasswordHash): (ok: bool)
    ensures ok <==> Covered(password) == hash.covered
  {
    HashPassword(password, hash.salt) == hash.(cost := SaltRounds)
  }

  /** A password verifies against a hash of itself, whatever the salt. */
  lemma HashThenVerify(password: string, salt: string)
    ensures VerifyPassword(password, HashPassword(password, salt))
  {
  }

  /** A hash accepts exactly the passwords that agree with the hashed one on
      their first 72 characters; for passwords of at most 72 characters, only
      the hashed password itself. */
  lemma VerifyAcceptsExactly(password: string, attempt: string, salt: string)
    ensures VerifyPassword(attempt, HashPassword(password, salt)) <==> Covered(attempt) == Covered(password)
    ensures |password| <= MaxPasswordLength && |attempt| <= MaxPasswordLength ==>
              (VerifyPassword(attempt, HashPassword(password, salt)) <==> attempt == password)
  {
  }
}

/** The JSON Web Token (RFC 7519) oracle behind `generateToken` and `jwt.verify`.

    Signing and verifying are foreign code; they are modelled as an idealised
    signature: a token verifies under a secret iff it was signed with that
    secret and its `exp` claim (section 4.1.4 of RFC 7519) has not been
    reached. A cookie value that is not a signed token is `Opaque`. Times are
    in seconds, as in the `iat` and `exp` claims. */
module Tokens {
  import opened Wrappers
  import opened Queries

  /** `expiresIn: "1h"`, in seconds. */
  const TokenLifetime := 60 * 60

  /** The claims `generateToken` puts in a token. */
  datatype Claims = Claims(id: int, username: string, isAdmin: bool, apiCalls: int)

  /** What `jwt.verify` hands back: the claims plus the registered `iat` and `exp` claims. */
  datatype Payload = Payload(claims: Claims, iat: int, exp: int)

  /** A cookie value: a token signed with some key, or any other text. */
  datatype Token = Signed(payload: Payload, key: string) | Opaque(text: string)

  /** The projection from a `users` row to token claims (`is_admin` becomes `isAdmin`). */
  function ClaimsOf(user: UserRow): (c: Claims)
    ensures c.id == user.id && c.username == user.username
    ensures c.isAdmin == user.isAdmin && c.apiCalls == user.apiCalls
  {
    Claims(user.id, user.username, user.isAdmin, user.apiCalls)
  }

  /** `generateToken(user)` at time `now`, signed with `secret`. */
  function GenerateToken(user: UserRow, secret: string, now: int): (t: Token)
    ensures t.Signed? && t.key == secret
    ensures t.payload.iat == now && t.payload.exp == now + TokenLifetime
    ensures t.payload.claims.id == user.id && t.payload.claims.username == user.username
    ensures t.payload.claims.isAdmin == user.isAdmin && t.payload.claims.apiCalls == user.apiCalls
  {
    Signed(Payload(ClaimsOf(user), now, now + TokenLifetime), secret)
  }

  /** `jwt.verify(token, secret)` at time `now`: the payload, or `None` where
      the library throws (bad signature, malformed token, expired). */
  function VerifyToken(token: Token, secret: string, now: int): (r: Option<Payload>)
    ensures r.Some? <==> token.Signed? && token.key == secret && now < token.payload.exp
    ensures r.Some? ==> r.value == token.payload
  {
    match token
    case Signed(payload, key) => if key == secret && now < payload.exp then Some(payload) else None
    case Opaque(_) => None
  }

  /** Verifying a token from `generateToken(u)` yields exactly the four claims
      taken from `u` at issue time, for one hour and not a second longer. */
  lemma GenerateThenVerify(user: UserRow, secret: string, issued: int, now: int)
    ensures VerifyToken(GenerateToken(user, secret, issued), secret, now)
         == if now < issued + TokenLifetime
            then Some(Payload(Claims(user.id, user.username, user.isAdmin, user.apiCalls), issued, issued + TokenLifetime))
            else None
  {
  }

  /** A token signed with any other key is rejected, whatever it claims. */
  lemma ForeignSignatureRejected(token: Token, secret: string, now: int)
    requires !(token.Signed? && token.key == secret)
    ensures VerifyToken(token, secret, now) == None
  {
  }

  /** The token carries neither the email nor the password hash: rows that
      differ only there yield the same claims. */
  lemma ClaimsOmitCredentials(user: UserRow, email: string, password: Passwords.PasswordHash)
    ensures ClaimsOf(user.(email := email, password := password)) == ClaimsOf(user)
  {
  }

  /** The `apiCalls` claim is a snapshot: once a charge lowers the live
      quota of a row, a token issued before it still reports the old value. */
  lemma SnapshotGoesStale(users: map<int, UserRow>, id: int, secret: string, issued: int, now: int)
    requires id in users && users[id].apiCalls > 0
    requires now < issued + TokenLifetime
    ensures var p := VerifyToken(GenerateToken(users[id], secret, issued), secret, now);
      && p.Some?
      && p.value.claims.apiCalls == users[id].apiCalls
      && Decremented(users, id)[id].apiCalls == p.value.claims.apiCalls - 1
  {
  }
}
