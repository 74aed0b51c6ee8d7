/**
 * `service/TokenRedisService.java`: refresh tokens and blacklisted access
 * tokens kept in a key-value store with per-key expiry. The store is a map
 * from key to value and expiry instant, the clock an integer count of
 * milliseconds; a key is live while the clock is before its expiry.
 */
module TokenStore {
  import opened Common
  import opened Jwt

  const RefreshPrefix: string := "refresh:"
  const BlacklistPrefix: string := "blacklist:"

  /** A stored value and the instant (ms) at which its key expires. */
  datatype Entry = Entry(value: string, expiresAt: int)

  /**
   * `prefix + claims.getId()`: string concatenation renders a null id as
   * the four letters "null".
   */
  function Key(prefix: string, id: Option<string>): (k: string)
    ensures |k| >= |prefix| && k[..|prefix|] == prefix
  {
    prefix + (if id.Some? then id.value else "null")
  }

  /**
   * `secondsUntilExpiration(exp)` at time `now`: `Duration.getSeconds`
   * floors the remaining milliseconds to seconds, and the result is at
   * least 1.
   */
  function SecondsUntilExpiration(now: int, expiration: int): (ttl: int)
    ensures ttl >= 1
    ensures (expiration - now) / 1000 >= 1 ==> ttl == (expiration - now) / 1000
    ensures (expiration - now) / 1000 < 1 ==> ttl == 1
    ensures ttl * 1000 <= expiration - now || ttl == 1
  {
    var remaining := (expiration - now) / 1000;
    if remaining < 1 then 1 else remaining
  }

  /** The value under `key` at time `now`, absent once expired. */
  function LiveIn(entries: map<string, Entry>, now: int, key: string): (v: Option<string>)
    ensures v.Some? <==> key in entries && now < entries[key].expiresAt
    ensures v.Some? ==> v.value == entries[key].value
  {
    if key in entries && now < entries[key].expiresAt then Some(entries[key].value) else None
  }

  /** `opsForValue().set(key, value, Duration.ofSeconds(ttl))` at time `now`. */
  function Put(entries: map<string, Entry>, now: int, key: string, value: string, ttlSeconds: int): map<string, Entry>
  {
    entries[key := Entry(value, now + ttlSeconds * 1000)]
  }

  class TokenRedisService {
    /**
     * The token parser the store calls as `jwtProvider.parseToken`.
     * `JwtProvider` declares no method of that name (its parser is
     * `validateAndParse`), so what the call does is not part of this model;
     * it is taken to be a total function, so a parse that throws is not
     * expressed.
     */
    const parseToken: string -> Claims
    var entries: map<string, Entry>
    var now: int

    constructor (parseToken: string -> Claims, now: int)
      ensures this.parseToken == parseToken && this.now == now && entries == map[]
    {
      this.parseToken := parseToken;
      this.now := now;
      entries := map[];
    }

    /** The value under `key` now. */
    function Live(key: string): Option<string>
      reads this
    {
      LiveIn(entries, now, key)
    }

    /** `saveRefresh(refresh)`: stores the token under its id for the time it has left. */
    method SaveRefresh(refresh: string)
      modifies this`entries
      ensures var c := parseToken(refresh);
        entries == Put(old(entries), now, Key(RefreshPrefix, c.id), refresh, SecondsUntilExpiration(now, c.expiration))
      ensures Live(Key(RefreshPrefix, parseToken(refresh).id)) == Some(refresh)
    {
      var claims := parseToken(refresh);
      var rid := claims.id;
      var ttlSeconds := SecondsUntilExpiration(now, claims.expiration);
      entries := Put(entries, now, Key(RefreshPrefix, rid), refresh, ttlSeconds);
    }

    /** `getRefresh(rid)`. */
    method GetRefresh(rid: string) returns (r: Option<string>)
      ensures r == Live(Key(RefreshPrefix, Some(rid)))
    {
      var key := Key(RefreshPrefix, Some(rid));
      if key in entries && now < entries[key].expiresAt {
        r := Some(entries[key].value);
      } else {
        r := None;
      }
    }

    /** `blackListAccess(access)`: marks the token's id with "1" for the time it has left. */
    method BlackListAccess(access: string)
      modifies this`entries
      ensures var c := parseToken(access);
        entries == Put(old(entries), now, Key(BlacklistPrefix, c.id), "1", SecondsUntilExpiration(now, c.expiration))
      ensures Live(Key(BlacklistPrefix, parseToken(access).id)) == Some("1")
    {
      var claims := parseToken(access);
      var aid := claims.id;
      var ttlSeconds := SecondsUntilExpiration(now, claims.expiration);
      entries := Put(entries, now, Key(BlacklistPrefix, aid), "1", ttlSeconds);
    }

    /** `isBlacklisted(access)`: whether the token's id key is live. */
    method IsBlacklisted(access: string) returns (b: bool)
      ensures b <==> Live(Key(BlacklistPrefix, parseToken(access).id)).Some?
    {
      var claims := parseToken(access);
      var key := Key(BlacklistPrefix, claims.id);
      b := key in entries && now < entries[key].expiresAt;
    }

    /** The passing of time; nothing else changes. */
    method Advance(ms: nat)
      modifies this`now
      ensures now == old(now) + ms
    {
      now := now + ms;
    }
  }

  // ---------------------------------------------------------------------
  // Properties of the store.
  // ---------------------------------------------------------------------

  /** The refresh and blacklist keyspaces never share a key. */
  lemma KeyspacesDisjoint(a: Option<string>, b: Option<string>)
    ensures Key(RefreshPrefix, a) != Key(BlacklistPrefix, b)
  {
    assert Key(RefreshPrefix, a)[0] == 'r';
    assert Key(BlacklistPrefix, b)[0] == 'b';
  }

  /** A key just written reads back its value until the expiry passes, and not after. */
  lemma PutThenLive(entries: map<string, Entry>, now: int, key: string, value: string, ttl: int, later: int)
    requires ttl >= 1 && now <= later
    ensures LiveIn(Put(entries, now, key, value, ttl), later, key)
            == (if later < now + ttl * 1000 then Some(value) else None)
  {
  }

  /** Writing one key leaves every other key as it was. */
  lemma PutOtherKey(entries: map<string, Entry>, now: int, key: string, value: string, ttl: int, other: string, at: int)
    requires other != key
    ensures LiveIn(Put(entries, now, key, value, ttl), at, other) == LiveIn(entries, at, other)
  {
  }

  /** Refresh writes never change whether an access token is blacklisted. */
  lemma RefreshLeavesBlacklist(entries: map<string, Entry>, now: int, rid: Option<string>, aid: Option<string>,
                               token: string, ttl: int, at: int)
    ensures LiveIn(Put(entries, now, Key(RefreshPrefix, rid), token, ttl), at, Key(BlacklistPrefix, aid))
            == LiveIn(entries, at, Key(BlacklistPrefix, aid))
  {
    KeyspacesDisjoint(rid, aid);
    PutOtherKey(entries, now, Key(RefreshPrefix, rid), token, ttl, Key(BlacklistPrefix, aid), at);
  }

  /** The last write to a key wins: the earlier one leaves no trace. */
  lemma LastWriteWins(entries: map<string, Entry>, t1: int, t2: int, key: string, v1: string, v2: string, ttl1: int, ttl2: int)
    ensures Put(Put(entries, t1, key, v1, ttl1), t2, key, v2, ttl2) == Put(entries, t2, key, v2, ttl2)
  {
  }

  /** Blacklisting twice at one instant with one expiry is blacklisting once. */
  lemma BlacklistIdempotent(entries: map<string, Entry>, now: int, aid: Option<string>, ttl: int)
    ensures var k := Key(BlacklistPrefix, aid);
      Put(Put(entries, now, k, "1", ttl), now, k, "1", ttl) == Put(entries, now, k, "1", ttl)
  {
  }

  /**
   * Neither token builder sets an id, so every refresh token is stored
   * under the single key "refresh:null" and every blacklisted access token
   * under "blacklist:null": saving one user's refresh token replaces any
   * other's, and blacklisting one access token blacklists all of them.
   */
  lemma IssuedTokensShareOneKey(c1: Claims, c2: Claims)
    requires c1.id == None && c2.id == None
    ensures Key(RefreshPrefix, c1.id) == Key(RefreshPrefix, c2.id) == "refresh:null"
    ensures Key(BlacklistPrefix, c1.id) == Key(BlacklistPrefix, c2.id) == "blacklist:null"
  {
  }

  /** Blacklisting any issued token blacklists every other issued token. */
  lemma BlacklistingOneBlacklistsAll(entries: map<string, Entry>, now: int, c1: Claims, c2: Claims, ttl: int)
    requires c1.id == None && c2.id == None && ttl >= 1
    ensures LiveIn(Put(entries, now, Key(BlacklistPrefix, c1.id), "1", ttl), now, Key(BlacklistPrefix, c2.id)) == Some("1")
  {
    IssuedTokensShareOneKey(c1, c2);
  }

  /**
   * Two users' refresh tokens share the key, so the later save wins: at
   * the key of the first user's token the store now answers with the
   * second user's token.
   */
  lemma {:induction false} SecondRefreshReplacesFirst(entries: map<string, Entry>, t1: int, t2: int,
                                                      c1: Claims, c2: Claims, r1: string, r2: string,
                                                      ttl1: int, ttl2: int)
    requires c1.id == None && c2.id == None && ttl2 >= 1
    ensures var saved := Put(entries, t1, Key(RefreshPrefix, c1.id), r1, ttl1);
      LiveIn(Put(saved, t2, Key(RefreshPrefix, c2.id), r2, ttl2), t2, Key(RefreshPrefix, c1.id)) == Some(r2)
  {
    IssuedTokensShareOneKey(c1, c2);
    var k := Key(RefreshPrefix, c1.id);
    LastWriteWins(entries, t1, t2, k, r1, r2, ttl1, ttl2);
    PutThenLive(entries, t2, k, r2, ttl2, t2);
  }
}
