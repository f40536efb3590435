/** The Redis key-value store as the session code uses it: string keys with
    an absolute expiry time in milliseconds (`SET key value EX seconds`),
    `GET` that no longer sees an expired key, and `DEL`. */
module KeyValue {
  import opened Common
  import opened Crypto

  /** What a key holds: a token string, the flag `true`, or other text
      (a referral code owner). */
  datatype KvValue = TokenValue(token: Jwt) | TrueFlag | Text(text: string)

  datatype KvEntry = KvEntry(value: KvValue, expiresAt: int)

  type KvMap = map<string, KvEntry>

  /** `GET key` at time `nowMs`: the value while the key has not expired. */
  function Get(m: KvMap, key: string, nowMs: int): (r: Option<KvValue>)
    ensures r.Some? <==> key in m && nowMs < m[key].expiresAt
  {
    if key in m && nowMs < m[key].expiresAt then Some(m[key].value) else None
  }

  /** `SET key value EX ttlSeconds` at time `nowMs`. */
  function Set(m: KvMap, key: string, v: KvValue, ttlSeconds: int, nowMs: int): KvMap {
    m[key := KvEntry(v, nowMs + ttlSeconds * MsPerSecond)]
  }

  /** `DEL key`. */
  function Del(m: KvMap, key: string): KvMap {
    m - {key}
  }

  /** A `SET` is visible to `GET` until its TTL runs out, and only its own key changes;
      a `DEL` hides its key and only that key. */
  lemma SetGetDel(m: KvMap, key: string, other: string, v: KvValue, ttl: int, setAt: int, at: int)
    ensures Get(Set(m, key, v, ttl, setAt), key, at) == (if at < setAt + ttl * 1000 then Some(v) else None)
    ensures other != key ==> Get(Set(m, key, v, ttl, setAt), other, at) == Get(m, other, at)
    ensures Get(Del(m, key), key, at).None?
    ensures other != key ==> Get(Del(m, key), other, at) == Get(m, other, at)
  {
  }

  /** The key under which a user's refresh token is kept. */
  function RefreshKey(userId: string): string {
    "refresh_token:" + userId
  }

  /** The key marking an access token's jti as logged out. */
  function BlacklistKey(jti: string): string {
    "bl_access:" + jti
  }

  /** The key naming the owner of a referral code. */
  function ReferralKey(code: string): string {
    "referral_code:" + code
  }

  /** Different users have different refresh keys, different jtis different
      blacklist keys, and the two families never meet. */
  lemma KeysDistinct(a: string, b: string)
    ensures RefreshKey(a) == RefreshKey(b) <==> a == b
    ensures BlacklistKey(a) == BlacklistKey(b) <==> a == b
    ensures RefreshKey(a) != BlacklistKey(b)
    ensures RefreshKey(a) != ReferralKey(b) && BlacklistKey(a) != ReferralKey(b)
  {
    if RefreshKey(a) == RefreshKey(b) {
      assert a == RefreshKey(a)[14..] == RefreshKey(b)[14..] == b;
    }
    if BlacklistKey(a) == BlacklistKey(b) {
      assert a == BlacklistKey(a)[10..] == BlacklistKey(b)[10..] == b;
    }
    assert RefreshKey(a)[0] != BlacklistKey(b)[0];
    assert RefreshKey(a)[3] != ReferralKey(b)[3];
    assert BlacklistKey(a)[0] != ReferralKey(b)[0];
  }

  /** The Redis connection. A call may fail with an error message (`fault`);
      a failing call changes nothing. */
  class KeyValueStore {
    var entries: KvMap

    constructor(initial: KvMap)
      ensures entries == initial
    {
      entries := initial;
    }

    method SetEx(key: string, v: KvValue, ttlSeconds: int, nowMs: int)
      modifies this`entries
      ensures entries == Set(old(entries), key, v, ttlSeconds, nowMs)
    {
      entries := entries[key := KvEntry(v, nowMs + ttlSeconds * MsPerSecond)];
    }

    method GetValue(key: string, nowMs: int) returns (r: Option<KvValue>)
      ensures r == Get(entries, key, nowMs)
    {
      if key in entries && nowMs < entries[key].expiresAt {
        r := Some(entries[key].value);
      } else {
        r := None;
      }
    }

    method Delete(key: string)
      modifies this`entries
      ensures entries == Del(old(entries), key)
    {
      entries := entries - {key};
    }
  }
}
