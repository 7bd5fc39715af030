/**
 * The authentication route (`app/api/auth/route.ts`): `RedisAuth`'s user and
 * session operations over the Redis key space, and the `POST`
 * (login / register / verify / logout) and `GET` actions built on them.
 * User records live under `auth:user:<lowercased username>` for a year;
 * sessions map `auth:session:<token>` to a user id for 30 days.
 */
module AuthRoute {
  import opened Wrappers
  import opened Strings

  datatype User = User(id: string, username: string, name: string, createdAt: string)

  /** The stored user record: the password as given, and the public user. */
  datatype UserRecord = UserRecord(password: string, user: User)

  /** What an `auth:` key holds: a user record, or a session's user id. */
  datatype Stored = UserEntry(rec: UserRecord) | SessionEntry(userId: string)

  /** The auth part of the Redis key space: values and their time-to-live in seconds. */
  datatype AuthState = AuthState(store: map<string, Stored>, ttl: map<string, nat>)

  /**
   * What the Redis client does within one request: nothing goes wrong,
   * every `GET` throws, or every write throws. `RedisAuth` catches each of
   * these and answers `null`/`false`.
   */
  datatype AuthFault = NoFault | ReadFails | WriteFails

  /** The request's environment: whether `ensureConnection` succeeds, and the client's fault. */
  datatype Env = Env(available: bool, fault: AuthFault)

  /** The JSON body's fields; an absent one is `None`. */
  datatype Body = Body(username: Option<string>, password: Option<string>, name: Option<string>, sessionToken: Option<string>)

  /** The route's answers. All but `HttpError` have status 200. */
  datatype AuthResponse =
    | Failure(error: string)
    | SessionOk(user: User, sessionToken: string)
    | LoggedOut
    | UserFound(user: User)
    | HttpError(status: int, error: string)

  const UserTtl: nat := 86400 * 365
  const SessionTtl: nat := 86400 * 30
  const UserPrefix: string := "auth:user:"
  const SessionPrefix: string := "auth:session:"

  /** The key of a username, lowercased so that lookups ignore case. */
  function UserKey(username: string): string {
    UserPrefix + Lower(username)
  }

  function SessionKey(token: string): string {
    SessionPrefix + token
  }

  /** JavaScript truthiness of an optional string field: present and non-empty. */
  predicate Truthy(o: Option<string>) {
    o.Some? && o.value != ""
  }

  // ---------------------------------------------------------------------------
  // RedisAuth, as functions of the key space

  /** `getUser`: the record under the lowercased name, or `null` on any failure. */
  function GetUserSpec(st: AuthState, username: string, env: Env): Option<UserRecord> {
    var key := UserKey(username);
    if !env.available || env.fault == ReadFails then None
    else if key in st.store && st.store[key].UserEntry? then Some(st.store[key].rec)
    else None
  }

  /** `saveUser`: writes the record for a year under the lowercased name. */
  function SaveUserSpec(st: AuthState, username: string, rec: UserRecord, env: Env): (AuthState, bool) {
    var key := UserKey(username);
    if !env.available || env.fault == WriteFails then (st, false)
    else (AuthState(st.store[key := UserEntry(rec)], st.ttl[key := UserTtl]), true)
  }

  /** `createSession`: maps the fresh token to the user id for 30 days. */
  function CreateSessionSpec(st: AuthState, userId: string, token: string, env: Env): (AuthState, Option<string>) {
    var key := SessionKey(token);
    if !env.available || env.fault == WriteFails then (st, None)
    else (AuthState(st.store[key := SessionEntry(userId)], st.ttl[key := SessionTtl]), Some(token))
  }

  /** `getSession`: the user id the token maps to. */
  function GetSessionSpec(st: AuthState, token: string, env: Env): Option<string> {
    var key := SessionKey(token);
    if !env.available || env.fault == ReadFails then None
    else if key in st.store && st.store[key].SessionEntry? then Some(st.store[key].userId)
    else None
  }

  /**
   * The first user, scanning `keys` (the `KEYS auth:user:*` reply) in order,
   * whose id is `userId`.
   */
  function FindUserById(store: map<string, Stored>, keys: seq<string>, userId: string): (r: Option<User>)
    ensures r.Some? ==> r.value.id == userId
    ensures r.Some? ==> exists i :: 0 <= i < |keys| && keys[i] in store && store[keys[i]].UserEntry? && store[keys[i]].rec.user == r.value
                          && forall j :: 0 <= j < i && keys[j] in store && store[keys[j]].UserEntry? ==> store[keys[j]].rec.user.id != userId
    ensures r.None? ==> forall i :: 0 <= i < |keys| && keys[i] in store && store[keys[i]].UserEntry? ==> store[keys[i]].rec.user.id != userId
  {
    if keys == [] then None
    else if keys[0] in store && store[keys[0]].UserEntry? && store[keys[0]].rec.user.id == userId then
      Some(store[keys[0]].rec.user)
    else
      var r := FindUserById(store, keys[1..], userId);
      assert forall i :: 1 <= i < |keys| ==> keys[i] == keys[1..][i - 1];
      r
  }

  /** What `KEYS auth:user:*` answers: exactly the stored keys under the user prefix, in some order. */
  ghost predicate KeysReply(store: map<string, Stored>, keys: seq<string>) {
    forall k :: k in keys <==> k in store && StartsWith(k, UserPrefix)
  }

  /**
   * Scanning a true `KEYS` reply finds a user exactly when some stored user
   * record carries the id, and what it finds is such a record.
   */
  lemma FindUserByIdOverReply(store: map<string, Stored>, keys: seq<string>, userId: string)
    requires KeysReply(store, keys)
    ensures var r := FindUserById(store, keys, userId);
      && (r.None? <==> forall k :: k in store && StartsWith(k, UserPrefix) && store[k].UserEntry? ==> store[k].rec.user.id != userId)
      && (r.Some? ==> exists k :: k in store && StartsWith(k, UserPrefix) && store[k].UserEntry? && store[k].rec.user == r.value)
  {
    var r := FindUserById(store, keys, userId);
    if r.None? {
      forall k | k in store && StartsWith(k, UserPrefix) && store[k].UserEntry?
        ensures store[k].rec.user.id != userId
      {
        assert k in keys;
        var i :| 0 <= i < |keys| && keys[i] == k;
      }
    } else {
      var i :| 0 <= i < |keys| && keys[i] in store && store[keys[i]].UserEntry? && store[keys[i]].rec.user == r.value;
      assert keys[i] in keys;
    }
  }

  /** `getUserById`. */
  function GetUserByIdSpec(st: AuthState, userId: string, keys: seq<string>, env: Env): Option<User> {
    if !env.available || env.fault == ReadFails then None
    else FindUserById(st.store, keys, userId)
  }

  /** `deleteSession`: `DEL` succeeds whether or not the key existed. */
  function DeleteSessionSpec(st: AuthState, token: string, env: Env): (AuthState, bool) {
    var key := SessionKey(token);
    if !env.available || env.fault == WriteFails then (st, false)
    else (AuthState(st.store - {key}, st.ttl - {key}), true)
  }

  /** The login action after the availability check. */
  function LoginSpec(st: AuthState, body: Body, env: Env, token: string): (AuthState, AuthResponse) {
    if !Truthy(body.username) || !Truthy(body.password) then (st, Failure("Username and password required"))
    else
      var rec := GetUserSpec(st, body.username.value, env);
      if rec.None? then (st, Failure("User not found"))
      else if rec.value.password != body.password.value then (st, Failure("Invalid password"))
      else
        var (st1, t) := CreateSessionSpec(st, rec.value.user.id, token, env);
        if t.None? then (st1, Failure("Failed to create session"))
        else (st1, SessionOk(rec.value.user, t.value))
  }

  /** The user a registration creates: lowercased username, trimmed name. */
  function NewUser(body: Body, freshId: string, now: string): User
    requires body.username.Some? && body.name.Some?
  {
    User(freshId, Lower(body.username.value), Trim(body.name.value), now)
  }

  /** The register action after the availability check. */
  function RegisterSpec(st: AuthState, body: Body, env: Env, freshId: string, now: string, token: string): (AuthState, AuthResponse) {
    if !Truthy(body.username) || !Truthy(body.password) || !Truthy(body.name) then (st, Failure("All fields are required"))
    else if GetUserSpec(st, body.username.value, env).Some? then (st, Failure("Username already exists"))
    else
      var user := NewUser(body, freshId, now);
      var (st1, saved) := SaveUserSpec(st, body.username.value, UserRecord(body.password.value, user), env);
      if !saved then (st1, Failure("Failed to create user"))
      else
        var (st2, t) := CreateSessionSpec(st1, user.id, token, env);
        if t.None? then (st2, Failure("Failed to create session"))
        else (st2, SessionOk(user, t.value))
  }

  /** The verify action after the availability check. */
  function VerifySpec(st: AuthState, body: Body, env: Env, keys: seq<string>): AuthResponse {
    if !Truthy(body.sessionToken) then Failure("Session token required")
    else
      var userId := GetSessionSpec(st, body.sessionToken.value, env);
      if !Truthy(userId) then Failure("Invalid session")
      else
        var user := GetUserByIdSpec(st, userId.value, keys, env);
        if user.None? then Failure("User not found")
        else SessionOk(user.value, body.sessionToken.value)
  }

  /** The logout action after the availability check: the deletion's outcome is ignored. */
  function LogoutSpec(st: AuthState, body: Body, env: Env): (AuthState, AuthResponse) {
    if !Truthy(body.sessionToken) then (st, Failure("Session token required"))
    else (DeleteSessionSpec(st, body.sessionToken.value, env).0, LoggedOut)
  }

  /**
   * `POST`: an unreadable body is a 500, an unavailable store a 503 before
   * the action is looked at, an unknown action a 400.
   */
  function PostSpec(st: AuthState, action: Option<string>, body: Option<Body>, env: Env,
                    freshId: string, now: string, token: string, keys: seq<string>): (AuthState, AuthResponse)
  {
    if body.None? then (st, HttpError(500, "Internal server error"))
    else if !env.available then (st, HttpError(503, "Authentication service not available"))
    else if action == Some("login") then LoginSpec(st, body.value, env, token)
    else if action == Some("register") then RegisterSpec(st, body.value, env, freshId, now, token)
    else if action == Some("verify") then (st, VerifySpec(st, body.value, env, keys))
    else if action == Some("logout") then LogoutSpec(st, body.value, env)
    else (st, HttpError(400, "Invalid action"))
  }

  /** `GET`: the session's user from the `x-session-token` header; there is no availability check of its own. */
  function GetSpec(st: AuthState, token: Option<string>, env: Env, keys: seq<string>): AuthResponse {
    if !Truthy(token) then HttpError(401, "No session token provided")
    else
      var userId := GetSessionSpec(st, token.value, env);
      if !Truthy(userId) then HttpError(401, "Invalid session")
      else
        var user := GetUserByIdSpec(st, userId.value, keys, env);
        if user.None? then HttpError(404, "User not found")
        else UserFound(user.value)
  }

  // ---------------------------------------------------------------------------
  // The route over a mutable key space

  class AuthStore {
    var store: map<string, Stored>
    var ttl: map<string, nat>

    function State(): AuthState
      reads this
    {
      AuthState(store, ttl)
    }

    constructor ()
      ensures State() == AuthState(map[], map[])
    {
      store := map[];
      ttl := map[];
    }

    method GetUser(username: string, env: Env) returns (r: Option<UserRecord>)
      ensures r == GetUserSpec(State(), username, env)
    {
      var key := UserKey(username);
      if !env.available || env.fault == ReadFails {
        return None;
      }
      if key in store && store[key].UserEntry? {
        r := Some(store[key].rec);
      } else {
        r := None;
      }
    }

    method SaveUser(username: string, rec: UserRecord, env: Env) returns (ok: bool)
      modifies this
      ensures (State(), ok) == SaveUserSpec(old(State()), username, rec, env)
    {
      if !env.available || env.fault == WriteFails {
        return false;
      }
      var key := UserKey(username);
      store := store[key := UserEntry(rec)];
      ttl := ttl[key := UserTtl];
      ok := true;
    }

    method CreateSession(userId: string, token: string, env: Env) returns (r: Option<string>)
      modifies this
      ensures (State(), r) == CreateSessionSpec(old(State()), userId, token, env)
    {
      if !env.available || env.fault == WriteFails {
        return None;
      }
      var key := SessionKey(token);
      store := store[key := SessionEntry(userId)];
      ttl := ttl[key := SessionTtl];
      r := Some(token);
    }

    method GetSession(token: string, env: Env) returns (r: Option<string>)
      ensures r == GetSessionSpec(State(), token, env)
    {
      var key := SessionKey(token);
      if !env.available || env.fault == ReadFails {
        return None;
      }
      r := if key in store && store[key].SessionEntry? then Some(store[key].userId) else None;
    }

    /** Scans the `KEYS` reply in order and keeps the first user with the id. */
    method GetUserById(userId: string, keys: seq<string>, env: Env) returns (r: Option<User>)
      ensures r == GetUserByIdSpec(State(), userId, keys, env)
    {
      if !env.available || env.fault == ReadFails {
        return None;
      }
      var i := |keys|;
      r := None;
      while i > 0
        invariant 0 <= i <= |keys|
        invariant r == FindUserById(store, keys[i..], userId)
      {
        i := i - 1;
        assert keys[i..][1..] == keys[i + 1..];
        var k := keys[i];
        if k in store && store[k].UserEntry? && store[k].rec.user.id == userId {
          r := Some(store[k].rec.user);
        }
      }
      assert keys[0..] == keys;
    }

    method DeleteSession(token: string, env: Env) returns (ok: bool)
      modifies this
      ensures (State(), ok) == DeleteSessionSpec(old(State()), token, env)
    {
      if !env.available || env.fault == WriteFails {
        return false;
      }
      var key := SessionKey(token);
      store := store - {key};
      ttl := ttl - {key};
      ok := true;
    }

    /** `POST /api/auth?action=…`; `freshId`, `now` and `token` stand for the generated id, timestamp and session token. */
    method Post(action: Option<string>, body: Option<Body>, env: Env,
                freshId: string, now: string, token: string, keys: seq<string>) returns (resp: AuthResponse)
      modifies this
      ensures (State(), resp) == PostSpec(old(State()), action, body, env, freshId, now, token, keys)
    {
      if body.None? {
        return HttpError(500, "Internal server error");
      }
      if !env.available {
        return HttpError(503, "Authentication service not available");
      }
      var b := body.value;
      if action == Some("login") {
        if !Truthy(b.username) || !Truthy(b.password) {
          return Failure("Username and password required");
        }
        var rec := GetUser(b.username.value, env);
        if rec.None? {
          return Failure("User not found");
        }
        if rec.value.password != b.password.value {
          return Failure("Invalid password");
        }
        var t := CreateSession(rec.value.user.id, token, env);
        if t.None? {
          return Failure("Failed to create session");
        }
        resp := SessionOk(rec.value.user, t.value);
      } else if action == Some("register") {
        if !Truthy(b.username) || !Truthy(b.password) || !Truthy(b.name) {
          return Failure("All fields are required");
        }
        var existing := GetUser(b.username.value, env);
        if existing.Some? {
          return Failure("Username already exists");
        }
        var user := NewUser(b, freshId, now);
        var saved := SaveUser(b.username.value, UserRecord(b.password.value, user), env);
        if !saved {
          return Failure("Failed to create user");
        }
        var t := CreateSession(user.id, token, env);
        if t.None? {
          return Failure("Failed to create session");
        }
        resp := SessionOk(user, t.value);
      } else if action == Some("verify") {
        if !Truthy(b.sessionToken) {
          return Failure("Session token required");
        }
        var userId := GetSession(b.sessionToken.value, env);
        if !Truthy(userId) {
          return Failure("Invalid session");
        }
        var user := GetUserById(userId.value, keys, env);
        if user.None? {
          return Failure("User not found");
        }
        resp := SessionOk(user.value, b.sessionToken.value);
      } else if action == Some("logout") {
        if !Truthy(b.sessionToken) {
          return Failure("Session token required");
        }
        var _ := DeleteSession(b.sessionToken.value, env);
        resp := LoggedOut;
      } else {
        resp := HttpError(400, "Invalid action");
      }
    }

    /** `GET /api/auth` with the `x-session-token` header. */
    method Get(token: Option<string>, env: Env, keys: seq<string>) returns (resp: AuthResponse)
      ensures resp == GetSpec(State(), token, env, keys)
    {
      if !Truthy(token) {
        return HttpError(401, "No session token provided");
      }
      var userId := GetSession(token.value, env);
      if !Truthy(userId) {
        return HttpError(401, "Invalid session");
      }
      var user := GetUserById(userId.value, keys, env);
      if user.None? {
        return HttpError(404, "User not found");
      }
      resp := UserFound(user.value);
    }
  }

  // ---------------------------------------------------------------------------
  // Properties

  /** User keys and session keys never collide, whatever the username and token. */
  lemma UserKeyNotSessionKey(username: string, token: string)
    ensures UserKey(username) != SessionKey(token)
  {
    assert UserKey(username)[5] == 'u';
    assert SessionKey(token)[5] == 's';
  }

  /** Usernames that lowercase alike share one record, so lookup and duplicate detection ignore case. */
  lemma UserKeyIgnoresCase(u: string, v: string)
    requires Lower(u) == Lower(v)
    ensures UserKey(u) == UserKey(v)
    ensures forall st, env :: GetUserSpec(st, u, env) == GetUserSpec(st, v, env)
  {
  }

  /** Different lowercased usernames have different keys. */
  lemma UserKeyInjective(u: string, v: string)
    requires UserKey(u) == UserKey(v)
    ensures Lower(u) == Lower(v)
  {
    ConcatInjective(UserPrefix, Lower(u), Lower(v));
  }

  /**
   * Login checks in order: missing fields, unknown user, wrong password; a
   * session for the stored user's id is written only when all pass, and
   * nothing else is written.
   */
  lemma LoginOrder(st: AuthState, body: Body, env: Env, token: string)
    requires env.available
    ensures var (st1, r) := LoginSpec(st, body, env, token);
      && (!Truthy(body.username) || !Truthy(body.password) ==> r == Failure("Username and password required") && st1 == st)
      && (Truthy(body.username) && Truthy(body.password) ==>
            var rec := GetUserSpec(st, body.username.value, env);
            && (rec.None? ==> r == Failure("User not found") && st1 == st)
            && (rec.Some? && rec.value.password != body.password.value ==> r == Failure("Invalid password") && st1 == st)
            && (r.SessionOk? <==> rec.Some? && rec.value.password == body.password.value && env.fault != WriteFails)
            && (r.SessionOk? ==> r.user == rec.value.user && r.sessionToken == token
                                 && st1.store == st.store[SessionKey(token) := SessionEntry(rec.value.user.id)]))
  {
  }

  /**
   * Register: an existing username is refused without a write; otherwise a
   * success stores the lowercased username and trimmed name for a year and
   * a session for 30 days.
   */
  lemma RegisterResult(st: AuthState, body: Body, env: Env, freshId: string, now: string, token: string)
    requires env.available && Truthy(body.username) && Truthy(body.password) && Truthy(body.name)
    ensures var (st1, r) := RegisterSpec(st, body, env, freshId, now, token);
      && (GetUserSpec(st, body.username.value, env).Some? ==> r == Failure("Username already exists") && st1 == st)
      && (r.SessionOk? ==>
            && r.user == User(freshId, Lower(body.username.value), Trim(body.name.value), now)
            && UserKey(body.username.value) in st1.store
            && st1.store[UserKey(body.username.value)] == UserEntry(UserRecord(body.password.value, r.user))
            && st1.ttl[UserKey(body.username.value)] == UserTtl
            && st1.store[SessionKey(token)] == SessionEntry(freshId)
            && st1.ttl[SessionKey(token)] == SessionTtl)
  {
    var key := UserKey(body.username.value);
    UserKeyNotSessionKey(body.username.value, token);
    if GetUserSpec(st, body.username.value, env).None? && env.fault != WriteFails {
      var user := NewUser(body, freshId, now);
      var st1 := SaveUserSpec(st, body.username.value, UserRecord(body.password.value, user), env).0;
      assert st1.store[key] == UserEntry(UserRecord(body.password.value, user));
      var st2 := CreateSessionSpec(st1, user.id, token, env).0;
      assert st2.store[key] == st1.store[key];
      assert st2.ttl[key] == st1.ttl[key];
    }
  }

  /** Registering a name that is taken in any letter case is refused. */
  lemma RegisterRefusesOtherCase(st: AuthState, body: Body, env: Env, freshId: string, now: string, token: string, other: string)
    requires env.available && env.fault == NoFault
    requires Truthy(body.username) && Truthy(body.password) && Truthy(body.name)
    requires Lower(other) == Lower(body.username.value)
    requires UserKey(other) in st.store && st.store[UserKey(other)].UserEntry?
    ensures RegisterSpec(st, body, env, freshId, now, token) == (st, Failure("Username already exists"))
  {
    UserKeyIgnoresCase(other, body.username.value);
  }

  /** When every read fails, registering a taken name overwrites the existing user's record. */
  lemma RegisterOverwritesOnReadFailure(st: AuthState, body: Body, freshId: string, now: string, token: string)
    requires Truthy(body.username) && Truthy(body.password) && Truthy(body.name)
    requires UserKey(body.username.value) in st.store
    ensures var (st1, r) := RegisterSpec(st, body, Env(true, ReadFails), freshId, now, token);
      r.SessionOk? && st1.store[UserKey(body.username.value)] == UserEntry(UserRecord(body.password.value, NewUser(body, freshId, now)))
  {
    UserKeyNotSessionKey(body.username.value, token);
  }

  /** The session a successful login writes verifies to a user with the same id, once the scan reaches that user's key. */
  lemma LoginThenVerify(st: AuthState, body: Body, token: string, keys: seq<string>)
    requires Truthy(body.username) && Truthy(body.password)
    requires LoginSpec(st, body, Env(true, NoFault), token).1.SessionOk?
    requires UserKey(body.username.value) in keys
    requires LoginSpec(st, body, Env(true, NoFault), token).1.user.id != ""
    ensures var (st1, r) := LoginSpec(st, body, Env(true, NoFault), token);
      var v := VerifySpec(st1, Body(None, None, None, Some(token)), Env(true, NoFault), keys);
      token != "" ==> v.SessionOk? && v.user.id == r.user.id && v.sessionToken == token
  {
    var env := Env(true, NoFault);
    var (st1, r) := LoginSpec(st, body, env, token);
    var key := UserKey(body.username.value);
    UserKeyNotSessionKey(body.username.value, token);
    assert st1.store[key] == st.store[key];
    var i :| 0 <= i < |keys| && keys[i] == key;
    assert st1.store[keys[i]].UserEntry? && st1.store[keys[i]].rec.user.id == r.user.id;
  }

  /** After a logout, the token no longer verifies, whether or not the session existed. */
  lemma LogoutThenVerifyFails(st: AuthState, token: string, keys: seq<string>)
    requires token != ""
    ensures var (st1, r) := LogoutSpec(st, Body(None, None, None, Some(token)), Env(true, NoFault));
      r == LoggedOut
      && SessionKey(token) !in st1.store
      && VerifySpec(st1, Body(None, None, None, Some(token)), Env(true, NoFault), keys) == Failure("Invalid session")
  {
  }

  /** An unreadable body is a 500 and an unavailable store a 503, before the action is looked at; an unknown action is a 400; none of them writes. */
  lemma PostErrorsFirst(st: AuthState, action: Option<string>, body: Option<Body>, env: Env,
                        freshId: string, now: string, token: string, keys: seq<string>)
    ensures body.None? ==> PostSpec(st, action, body, env, freshId, now, token, keys) == (st, HttpError(500, "Internal server error"))
    ensures body.Some? && !env.available ==>
              PostSpec(st, action, body, env, freshId, now, token, keys) == (st, HttpError(503, "Authentication service not available"))
    ensures body.Some? && env.available && action !in {Some("login"), Some("register"), Some("verify"), Some("logout")} ==>
              PostSpec(st, action, body, env, freshId, now, token, keys) == (st, HttpError(400, "Invalid action"))
  {
  }

  /** `GET`: no token is a 401, an unknown session (or an unavailable store) a 401, a session without its user a 404. */
  lemma GetStatuses(st: AuthState, token: Option<string>, env: Env, keys: seq<string>)
    ensures !Truthy(token) ==> GetSpec(st, token, env, keys) == HttpError(401, "No session token provided")
    ensures Truthy(token) && !env.available ==> GetSpec(st, token, env, keys) == HttpError(401, "Invalid session")
    ensures Truthy(token) && env.available && env.fault == NoFault && SessionKey(token.value) !in st.store ==>
              GetSpec(st, token, env, keys) == HttpError(401, "Invalid session")
    ensures GetSpec(st, token, env, keys).UserFound? ==>
              var u := GetSpec(st, token, env, keys).user;
              SessionKey(token.value) in st.store && st.store[SessionKey(token.value)] == SessionEntry(u.id)
  {
  }
}
