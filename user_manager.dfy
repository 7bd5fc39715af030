/**
 * The client's user identity (`UserManager`): the signed-in user is the
 * JSON under `health_app_current_user` in `localStorage`; its id names the
 * Redis key prefix of the user's data.
 */
module UserManager {
  import opened Wrappers
  import opened BrowserStorage

  const CurrentUserKey: string := "health_app_current_user"

  /** What reading the current-user key yields, and the storage afterwards. */
  datatype Lookup = Lookup(local: map<string, Stored>, user: Option<BrowserUser>)

  /**
   * Reads the current user: a non-empty entry that parses is the user; one
   * that does not parse is removed. Outside a browser nothing is read.
   */
  function CurrentUserSpec(local: map<string, Stored>, inBrowser: bool): (r: Lookup)
    ensures r.user.Some? <==> inBrowser && CurrentUserKey in local && local[CurrentUserKey].UserJson?
    ensures r.user.Some? ==> r.user.value == local[CurrentUserKey].user
    ensures r.local == local || r.local == local - {CurrentUserKey}
  {
    if !inBrowser then Lookup(local, None)
    else
      var v := GetTruthy(local, CurrentUserKey);
      if v.None? then Lookup(local, None)
      else if ParseUser(v.value).Some? then Lookup(local, ParseUser(v.value))
      else Lookup(local - {CurrentUserKey}, None)
  }

  /** `getUserId`: `default_user` outside a browser, the stored user's id, or `anonymous_user`. */
  function UserIdSpec(local: map<string, Stored>, inBrowser: bool): (r: (map<string, Stored>, string))
    ensures !inBrowser ==> r.1 == "default_user"
  {
    if !inBrowser then (local, "default_user")
    else
      var l := CurrentUserSpec(local, inBrowser);
      (l.local, if l.user.Some? then l.user.value.id else "anonymous_user")
  }

  method GetCurrentUser(b: Browser, inBrowser: bool) returns (r: Option<BrowserUser>)
    modifies b
    ensures Lookup(b.local, r) == CurrentUserSpec(old(b.local), inBrowser)
    ensures b.session == old(b.session)
  {
    if !inBrowser {
      return None;
    }
    if CurrentUserKey in b.local && Truthy(b.local[CurrentUserKey]) {
      var u := ParseUser(b.local[CurrentUserKey]);
      if u.Some? {
        return u;
      }
      b.local := b.local - {CurrentUserKey};
    }
    r := None;
  }

  method GetUserId(b: Browser, inBrowser: bool) returns (id: string)
    modifies b
    ensures (b.local, id) == UserIdSpec(old(b.local), inBrowser)
    ensures b.session == old(b.session)
  {
    if !inBrowser {
      return "default_user";
    }
    var u := GetCurrentUser(b, inBrowser);
    id := if u.Some? then u.value.id else "anonymous_user";
  }

  method IsAuthenticated(b: Browser, inBrowser: bool) returns (ok: bool)
    modifies b
    ensures ok <==> CurrentUserSpec(old(b.local), inBrowser).user.Some?
    ensures b.local == CurrentUserSpec(old(b.local), inBrowser).local
    ensures b.session == old(b.session)
  {
    var u := GetCurrentUser(b, inBrowser);
    ok := u.Some?;
  }

  method GetUserPrefix(b: Browser, inBrowser: bool) returns (prefix: string)
    modifies b
    ensures prefix == "user:" + UserIdSpec(old(b.local), inBrowser).1 + ":"
    ensures b.local == UserIdSpec(old(b.local), inBrowser).0
    ensures b.session == old(b.session)
  {
    var id := GetUserId(b, inBrowser);
    prefix := "user:" + id + ":";
  }

  method ClearUser(b: Browser, inBrowser: bool)
    modifies b
    ensures b.local == (if inBrowser then old(b.local) - {CurrentUserKey} else old(b.local))
    ensures b.session == old(b.session)
  {
    if !inBrowser {
      return;
    }
    b.local := b.local - {CurrentUserKey};
  }

  // ---------------------------------------------------------------------------
  // Properties

  /** The id is the stored user's when the key parses; otherwise `anonymous_user`, and an unparseable entry is removed. */
  lemma UserIdCases(local: map<string, Stored>)
    ensures CurrentUserKey in local && local[CurrentUserKey].UserJson? ==>
              UserIdSpec(local, true) == (local, local[CurrentUserKey].user.id)
    ensures CurrentUserKey !in local ==> UserIdSpec(local, true) == (local, "anonymous_user")
    ensures CurrentUserKey in local && !local[CurrentUserKey].UserJson? && Truthy(local[CurrentUserKey]) ==>
              UserIdSpec(local, true) == (local - {CurrentUserKey}, "anonymous_user")
  {
  }

  /** Signed in exactly when the id comes from a stored user (and so is not the anonymous fallback's source). */
  lemma AuthenticatedIffStoredUser(local: map<string, Stored>)
    ensures CurrentUserSpec(local, true).user.Some? <==> (CurrentUserKey in local && local[CurrentUserKey].UserJson?)
    ensures CurrentUserSpec(local, true).user.None? ==> UserIdSpec(local, true).1 == "anonymous_user"
  {
  }

  /** After `clearUser` in a browser, the id is `anonymous_user` and nobody is signed in. */
  lemma ClearedUserIsAnonymous(local: map<string, Stored>)
    ensures UserIdSpec(local - {CurrentUserKey}, true) == (local - {CurrentUserKey}, "anonymous_user")
    ensures CurrentUserSpec(local - {CurrentUserKey}, true).user.None?
  {
  }

  /** Reading twice gives the same answer: a removed entry stays removed and a parsed one stays put. */
  lemma CurrentUserStable(local: map<string, Stored>, inBrowser: bool)
    ensures var l := CurrentUserSpec(local, inBrowser);
      CurrentUserSpec(l.local, inBrowser) == l
  {
  }
}
