/** `generateHashedToken` (utils/token.js): the one-time token behind email
    verification and password reset. The 32 random bytes and the clock are
    inputs. */
module OneTimeToken {
  import opened Common
  import opened Crypto

  /** Lifetime of a one-time token: one hour, in milliseconds. */
  const TokenLifetimeMs: int := 60 * 60 * 1000

  /** The object the generator returns; its keys are `raw`, `hashed` and `expires`. */
  datatype HashedToken = HashedToken(raw: string, hashed: Digest, expires: int)

  function GenerateHashedToken(random: seq<byte>, nowMs: int): (t: HashedToken)
    requires |random| == 32
    ensures |t.raw| == 64 && forall i :: 0 <= i < |t.raw| ==> IsLowerHexDigit(t.raw[i])
    ensures t.hashed == Sha256Hex(t.raw)
    ensures t.expires == nowMs + 3_600_000
  {
    var raw := HexEncode(random);
    HashedToken(raw, Sha256Hex(raw), nowMs + TokenLifetimeMs)
  }

  /** Different random bytes give different raw tokens and different stored hashes. */
  lemma DistinctRandomDistinctTokens(r1: seq<byte>, r2: seq<byte>, now1: int, now2: int)
    requires |r1| == 32 && |r2| == 32 && r1 != r2
    ensures GenerateHashedToken(r1, now1).raw != GenerateHashedToken(r2, now2).raw
    ensures GenerateHashedToken(r1, now1).hashed != GenerateHashedToken(r2, now2).hashed
  {
    if HexEncode(r1) == HexEncode(r2) {
      HexEncodeInjective(r1, r2);
    }
  }

  /** What a caller obtains by destructuring the generator's result under a
      given set of names: the raw value to email, the hash to store and the expiry. */
  datatype Issued = Issued(rawToken: Option<string>, hashedToken: Option<Digest>, expires: Option<int>)

  /** The account handlers destructure `{ rawToken, hashedToken, expires }`;
      the first two keys do not exist on the result, so both read as undefined. */
  function DestructureAsWritten(t: HashedToken): (i: Issued)
    ensures i.rawToken.None? && i.hashedToken.None? && i.expires == Some(t.expires)
  {
    Issued(None, None, Some(t.expires))
  }

  /** Destructuring under the generator's own key names. */
  function Destructure(t: HashedToken): (i: Issued)
    ensures i.rawToken == Some(t.raw) && i.expires == Some(t.expires)
    ensures t.hashed == Sha256Hex(t.raw) ==> i.hashedToken == Some(Sha256Hex(i.rawToken.value))
  {
    Issued(Some(t.raw), Some(t.hashed), Some(t.expires))
  }
}
