/**
 * The client's session cache (`SessionRecovery`): the session token in
 * `localStorage`, and the signed-in user cached in two tiers, a
 * short-lived copy in `sessionStorage` (10 minutes) and a longer one in
 * `localStorage` (1 hour).
 */
module SessionRecovery {
  import opened Wrappers
  import opened Strings
  import opened BrowserStorage

  const SessionTokenKey: string := "health_app_session_token"
  const UserCacheKey: string := "auth_user_local_cache"
  const UserCacheTimeKey: string := "auth_user_local_cache_time"
  const SessionUserCacheKey: string := "auth_user_cache"
  const SessionUserCacheTimeKey: string := "auth_user_cache_time"
  const HealthCheckPrefix: string := "health-check-"

  const SessionTierMaxAge: int := 600000
  const LocalTierMaxAge: int := 3600000

  /** What one tier yields: a fresh user, a fresh entry that does not parse, or nothing usable. */
  datatype TierRead = TierUser(user: BrowserUser) | TierCorrupt | TierMiss

  /** `!!localStorage.getItem(SESSION_TOKEN_KEY)`. */
  predicate HasToken(st: BrowserState) {
    GetTruthy(st.local, SessionTokenKey).Some?
  }

  /**
   * One tier: both keys must hold non-empty strings and the timestamp must
   * be younger than `maxAge` (an unparseable timestamp is `NaN`, never
   * younger); then the user parses or the tier is corrupt.
   */
  function ReadTier(m: map<string, Stored>, userKey: string, timeKey: string, now: int, maxAge: int): (r: TierRead)
    ensures r != TierMiss ==> userKey in m && timeKey in m && m[timeKey].Millis? && now - m[timeKey].t < maxAge
    ensures r.TierUser? <==> userKey in m && m[userKey].UserJson? && timeKey in m && m[timeKey].Millis? && now - m[timeKey].t < maxAge
    ensures r.TierUser? ==> r.user == m[userKey].user
  {
    var u := GetTruthy(m, userKey);
    var t := GetTruthy(m, timeKey);
    if u.None? || t.None? then TierMiss
    else
      var ms := ParseMillis(t.value);
      if ms.None? || !(now - ms.value < maxAge) then TierMiss
      else if ParseUser(u.value).Some? then TierUser(ParseUser(u.value).value)
      else TierCorrupt
  }

  /**
   * `getCachedUser`: the session tier first, then the local tier; a tier
   * that is fresh but does not parse has both its keys removed.
   */
  function CachedUserSpec(st: BrowserState, now: int): (BrowserState, Option<BrowserUser>) {
    var s := ReadTier(st.session, SessionUserCacheKey, SessionUserCacheTimeKey, now, SessionTierMaxAge);
    if s.TierUser? then (st, Some(s.user))
    else
      var st1 := if s.TierCorrupt? then st.(session := st.session - {SessionUserCacheKey, SessionUserCacheTimeKey}) else st;
      var l := ReadTier(st1.local, UserCacheKey, UserCacheTimeKey, now, LocalTierMaxAge);
      if l.TierUser? then (st1, Some(l.user))
      else if l.TierCorrupt? then (st1.(local := st1.local - {UserCacheKey, UserCacheTimeKey}), None)
      else (st1, None)
  }

  /** `cacheUser`: the same user text and the same timestamp in both tiers. */
  function CacheUserSpec(st: BrowserState, user: BrowserUser, now: int): (r: BrowserState)
    ensures r.session == st.session[SessionUserCacheKey := UserJson(user)][SessionUserCacheTimeKey := Millis(now)]
    ensures r.local == st.local[UserCacheKey := UserJson(user)][UserCacheTimeKey := Millis(now)]
  {
    BrowserState(st.local[UserCacheKey := UserJson(user)][UserCacheTimeKey := Millis(now)],
                 st.session[SessionUserCacheKey := UserJson(user)][SessionUserCacheTimeKey := Millis(now)])
  }

  /** What `clearSession` leaves of `sessionStorage`: everything but the two cache keys and the `health-check-` keys. */
  function ClearedSession(s: map<string, Stored>): (r: map<string, Stored>)
    ensures forall k :: k in r <==> k in s && k != SessionUserCacheKey && k != SessionUserCacheTimeKey && !StartsWith(k, HealthCheckPrefix)
    ensures forall k :: k in r ==> r[k] == s[k]
  {
    map k | k in s && k != SessionUserCacheKey && k != SessionUserCacheTimeKey && !StartsWith(k, HealthCheckPrefix) :: s[k]
  }

  /** `clearSession`: the token and the four cache keys go, and so do the health-check keys. */
  function ClearSessionSpec(st: BrowserState): BrowserState {
    BrowserState(st.local - {SessionTokenKey, UserCacheKey, UserCacheTimeKey}, ClearedSession(st.session))
  }

  /** `shouldRecoverSession`: `getCachedUser` runs only when a token is present. */
  function ShouldRecoverSpec(st: BrowserState, now: int): (BrowserState, bool) {
    if !HasToken(st) then (st, false)
    else
      var (st1, u) := CachedUserSpec(st, now);
      (st1, u.Some?)
  }

  // ---------------------------------------------------------------------------
  // The operations on the browser's storages

  method HasValidToken(b: Browser) returns (ok: bool)
    ensures ok <==> SessionTokenKey in b.local && Truthy(b.local[SessionTokenKey])
  {
    ok := SessionTokenKey in b.local && Truthy(b.local[SessionTokenKey]);
  }

  method GetToken(b: Browser) returns (r: Option<Stored>)
    ensures r.Some? <==> SessionTokenKey in b.local
    ensures r.Some? ==> r.value == b.local[SessionTokenKey]
  {
    r := if SessionTokenKey in b.local then Some(b.local[SessionTokenKey]) else None;
  }

  method StoreToken(b: Browser, token: string)
    modifies b
    ensures b.State() == old(b.State()).(local := old(b.local)[SessionTokenKey := Text(token)])
  {
    b.local := b.local[SessionTokenKey := Text(token)];
  }

  method ReadTierOf(m: map<string, Stored>, userKey: string, timeKey: string, now: int, maxAge: int) returns (r: TierRead)
    ensures r == ReadTier(m, userKey, timeKey, now, maxAge)
  {
    if userKey !in m || !Truthy(m[userKey]) || timeKey !in m || !Truthy(m[timeKey]) {
      return TierMiss;
    }
    var ms := ParseMillis(m[timeKey]);
    if ms.None? || !(now - ms.value < maxAge) {
      return TierMiss;
    }
    var u := ParseUser(m[userKey]);
    r := if u.Some? then TierUser(u.value) else TierCorrupt;
  }

  method GetCachedUser(b: Browser, now: int) returns (r: Option<BrowserUser>)
    modifies b
    ensures (b.State(), r) == CachedUserSpec(old(b.State()), now)
  {
    var s := ReadTierOf(b.session, SessionUserCacheKey, SessionUserCacheTimeKey, now, SessionTierMaxAge);
    if s.TierUser? {
      return Some(s.user);
    }
    if s.TierCorrupt? {
      b.session := b.session - {SessionUserCacheKey, SessionUserCacheTimeKey};
    }
    var l := ReadTierOf(b.local, UserCacheKey, UserCacheTimeKey, now, LocalTierMaxAge);
    if l.TierUser? {
      return Some(l.user);
    }
    if l.TierCorrupt? {
      b.local := b.local - {UserCacheKey, UserCacheTimeKey};
    }
    r := None;
  }

  method CacheUser(b: Browser, user: BrowserUser, now: int)
    modifies b
    ensures b.State() == CacheUserSpec(old(b.State()), user, now)
  {
    b.session := b.session[SessionUserCacheKey := UserJson(user)];
    b.session := b.session[SessionUserCacheTimeKey := Millis(now)];
    b.local := b.local[UserCacheKey := UserJson(user)];
    b.local := b.local[UserCacheTimeKey := Millis(now)];
  }

  /** A `health-check-` key with `-time` appended is still a `health-check-` key. */
  lemma TimeKeyKeepsPrefix(k: string)
    requires StartsWith(k, HealthCheckPrefix)
    ensures StartsWith(k + "-time", HealthCheckPrefix)
  {
    assert (k + "-time")[..|HealthCheckPrefix|] == k[..|HealthCheckPrefix|];
  }

  /** Removes the fixed keys, then each `health-check-` key and its `-time` companion. */
  method ClearSession(b: Browser)
    modifies b
    ensures b.State() == ClearSessionSpec(old(b.State()))
  {
    b.local := b.local - {SessionTokenKey};
    b.local := b.local - {UserCacheKey, UserCacheTimeKey};
    b.session := b.session - {SessionUserCacheKey, SessionUserCacheTimeKey};
    ghost var s0 := b.session;
    var remaining := set k | k in b.session && StartsWith(k, HealthCheckPrefix);
    while remaining != {}
      invariant forall k :: k in remaining ==> StartsWith(k, HealthCheckPrefix)
      invariant forall k :: k in b.session ==> k in s0 && b.session[k] == s0[k]
      invariant forall k :: k in s0 && !StartsWith(k, HealthCheckPrefix) ==> k in b.session
      invariant forall k :: k in b.session && StartsWith(k, HealthCheckPrefix) ==> k in remaining
      invariant b.local == old(b.local) - {SessionTokenKey, UserCacheKey, UserCacheTimeKey}
      decreases remaining
    {
      var k :| k in remaining;
      TimeKeyKeepsPrefix(k);
      b.session := b.session - {k, k + "-time"};
      remaining := remaining - {k};
    }
    assert b.session == ClearedSession(old(b.session));
  }

  method ShouldRecoverSession(b: Browser, now: int) returns (ok: bool)
    modifies b
    ensures (b.State(), ok) == ShouldRecoverSpec(old(b.State()), now)
  {
    var token := HasValidToken(b);
    if !token {
      return false;
    }
    var u := GetCachedUser(b, now);
    ok := u.Some?;
  }

  method PrepareForNavigation(b: Browser, user: Option<BrowserUser>, now: int)
    modifies b
    ensures user.Some? ==> b.State() == CacheUserSpec(old(b.State()), user.value, now)
    ensures user.None? ==> b.State() == old(b.State())
  {
    if user.Some? {
      CacheUser(b, user.value, now);
    }
  }

  // ---------------------------------------------------------------------------
  // Properties

  /**
   * A cached user is read back from the session tier for 10 minutes, from
   * the local tier for the rest of the hour, and not at all afterwards;
   * none of these reads changes the storages.
   */
  lemma CachedUserLifetime(st: BrowserState, user: BrowserUser, now: int, later: int)
    requires now <= later
    ensures var st1 := CacheUserSpec(st, user, now);
      && (later < now + SessionTierMaxAge ==> CachedUserSpec(st1, later) == (st1, Some(user)))
      && (later < now + LocalTierMaxAge ==> CachedUserSpec(st1, later) == (st1, Some(user)))
      && (now + LocalTierMaxAge <= later ==> CachedUserSpec(st1, later) == (st1, None))
  {
  }

  /** The session tier wins while it is fresh and parses, whatever the local tier holds. */
  lemma SessionTierPreferred(st: BrowserState, now: int)
    requires ReadTier(st.session, SessionUserCacheKey, SessionUserCacheTimeKey, now, SessionTierMaxAge).TierUser?
    ensures CachedUserSpec(st, now) == (st, Some(st.session[SessionUserCacheKey].user))
  {
  }

  /** A fresh session-tier entry that does not parse loses both its keys, and the local tier is consulted instead. */
  lemma CorruptSessionTierRemoved(st: BrowserState, now: int)
    requires ReadTier(st.session, SessionUserCacheKey, SessionUserCacheTimeKey, now, SessionTierMaxAge).TierCorrupt?
    ensures var (st1, r) := CachedUserSpec(st, now);
      && SessionUserCacheKey !in st1.session && SessionUserCacheTimeKey !in st1.session
      && (r.Some? <==> ReadTier(st.local, UserCacheKey, UserCacheTimeKey, now, LocalTierMaxAge).TierUser?)
  {
  }

  /** Entries that are stale but parse are left where they are. */
  lemma StaleEntriesKept(st: BrowserState, now: int)
    requires ReadTier(st.session, SessionUserCacheKey, SessionUserCacheTimeKey, now, SessionTierMaxAge) == TierMiss
    requires ReadTier(st.local, UserCacheKey, UserCacheTimeKey, now, LocalTierMaxAge) == TierMiss
    ensures CachedUserSpec(st, now) == (st, None)
  {
  }

  /**
   * After `clearSession` there is no token and no cached user, and every
   * other key keeps its value.
   */
  lemma ClearSessionForgetsUser(st: BrowserState, now: int)
    ensures var st1 := ClearSessionSpec(st);
      && !HasToken(st1)
      && CachedUserSpec(st1, now) == (st1, None)
      && (forall k :: k in st.local && k !in {SessionTokenKey, UserCacheKey, UserCacheTimeKey} ==> k in st1.local && st1.local[k] == st.local[k])
      && (forall k :: k in st.session && k != SessionUserCacheKey && k != SessionUserCacheTimeKey && !StartsWith(k, HealthCheckPrefix) ==>
            k in st1.session && st1.session[k] == st.session[k])
  {
  }

  /** Recovery is possible exactly when a token is present and a cached user is found. */
  lemma ShouldRecoverIff(st: BrowserState, now: int)
    ensures ShouldRecoverSpec(st, now).1 <==> HasToken(st) && CachedUserSpec(st, now).1.Some?
  {
  }

  /** Preparing to navigate with a user makes recovery succeed as long as the token stays. */
  lemma PreparedSessionRecovers(st: BrowserState, user: BrowserUser, now: int)
    requires HasToken(st)
    ensures ShouldRecoverSpec(CacheUserSpec(st, user, now), now).1
  {
  }
}
