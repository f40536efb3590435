/** Symbolic models of the cryptographic primitives the session code calls:
    JSON Web Tokens (RFC 7519, as `jsonwebtoken` signs and verifies them),
    bcrypt password hashing, SHA-256 digests and hex encoding of random bytes.
    Signatures and hashes are constructors, so a token verifies only under the
    secret it was signed with and a hash matches only its own input. */
module Crypto {
  import opened Common

  /** The payload the server signs: `{ userId, jti }` (jti: section 4.1.7 of RFC 7519). */
  datatype Claims = Claims(userId: string, jti: string)

  /** A token string as the server receives it: either the encoding of a payload
      signed with `secret`, issued at `iat` and expiring at `exp` (both in
      seconds), or any other text. */
  datatype Jwt = Signed(secret: string, claims: Claims, iat: int, exp: int) | Malformed(text: string) {
    /** The empty string, the only falsy token value. */
    predicate Empty() {
      this == Malformed([])
    }
  }

  /** `jwt.sign(claims, secret, { expiresIn })`. */
  function Sign(secret: string, claims: Claims, nowMs: nat, lifetimeSeconds: nat): Jwt {
    var iat := nowMs / 1000;
    Signed(secret, claims, iat, iat + lifetimeSeconds)
  }

  /** The two error classes `jwt.verify` throws. */
  datatype VerifyError = TokenExpiredError | JsonWebTokenError(message: string) {
    function Message(): string {
      match this
      case TokenExpiredError => "jwt expired"
      case JsonWebTokenError(m) => m
    }
  }

  /** `jwt.verify(token, secret)`: the signature is checked first, then the
      expiry (a token is expired from its `exp` second on). */
  function Verify(secret: string, token: Jwt, nowMs: nat): Result<Claims, VerifyError> {
    match token
    case Malformed(text) =>
      Failure(JsonWebTokenError(if text == [] then "jwt must be provided" else "jwt malformed"))
    case Signed(key, claims, _, exp) =>
      if key != secret then Failure(JsonWebTokenError("invalid signature"))
      else if nowMs / 1000 >= exp then Failure(TokenExpiredError)
      else Success(claims)
  }

  /** Verifying a freshly signed token gives back its claims exactly while it
      is unexpired, and verification under any other secret fails as a bad
      signature, whatever the time. */
  lemma VerifySign(secret: string, other: string, claims: Claims, signedAt: nat, lifetime: nat, at: nat)
    ensures Verify(secret, Sign(secret, claims, signedAt, lifetime), at) == Success(claims)
      <==> at / 1000 < signedAt / 1000 + lifetime
    ensures at / 1000 >= signedAt / 1000 + lifetime ==>
      Verify(secret, Sign(secret, claims, signedAt, lifetime), at) == Failure(TokenExpiredError)
    ensures other != secret ==>
      Verify(other, Sign(secret, claims, signedAt, lifetime), at) == Failure(JsonWebTokenError("invalid signature"))
  {
  }

  /** A stored password: plain text as assigned, or the bcrypt hash of a stored value. */
  datatype Credential = Plain(text: string) | Bcrypt(input: Credential)

  /** `bcrypt.compare(candidate, stored)`: true exactly when `stored` is the hash
      of the candidate; a value that is not a hash never matches. */
  predicate BcryptCompare(candidate: string, stored: Credential) {
    stored == Bcrypt(Plain(candidate))
  }

  /** A hex SHA-256 digest (FIPS 180-4), identified by its input. */
  datatype Digest = Sha256(input: string)

  /** `crypto.createHash('sha256').update(s).digest('hex')`. */
  function Sha256Hex(s: string): Digest {
    Sha256(s)
  }

  newtype byte = x: int | 0 <= x < 256

  predicate IsLowerHexDigit(c: char) {
    '0' <= c <= '9' || 'a' <= c <= 'f'
  }

  function HexDigit(d: int): (c: char)
    requires 0 <= d < 16
    ensures IsLowerHexDigit(c)
  {
    if d < 10 then ('0' as int + d) as char else ('a' as int + d - 10) as char
  }

  lemma HexDigitInjective(d: int, e: int)
    requires 0 <= d < 16 && 0 <= e < 16
    requires HexDigit(d) == HexDigit(e)
    ensures d == e
  {
  }

  /** `buffer.toString('hex')`: two lower-case hex digits per byte, high nibble first. */
  function HexEncode(bytes: seq<byte>): (s: string)
    ensures |s| == 2 * |bytes|
    ensures forall i :: 0 <= i < |s| ==> IsLowerHexDigit(s[i])
  {
    if bytes == [] then []
    else [HexDigit(bytes[0] as int / 16), HexDigit(bytes[0] as int % 16)] + HexEncode(bytes[1..])
  }

  /** Distinct byte strings have distinct hex encodings. */
  lemma {:induction false} HexEncodeInjective(a: seq<byte>, b: seq<byte>)
    requires HexEncode(a) == HexEncode(b)
    ensures a == b
  {
    if a != [] {
      var ha, hb := HexEncode(a), HexEncode(b);
      assert |b| == |a|;
      assert ha[0] == HexDigit(a[0] as int / 16) && hb[0] == HexDigit(b[0] as int / 16);
      assert ha[1] == HexDigit(a[0] as int % 16) && hb[1] == HexDigit(b[0] as int % 16);
      HexDigitInjective(a[0] as int / 16, b[0] as int / 16);
      HexDigitInjective(a[0] as int % 16, b[0] as int % 16);
      assert a[0] == b[0];
      assert HexEncode(a[1..]) == ha[2..] == hb[2..] == HexEncode(b[1..]);
      HexEncodeInjective(a[1..], b[1..]);
      assert a == [a[0]] + a[1..];
      assert b == [b[0]] + b[1..];
    }
  }
}
