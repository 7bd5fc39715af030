/**
 * The browser's `localStorage` and `sessionStorage`, as the session cache
 * and the user manager read and write them. Every stored value is a string;
 * the model keeps the three kinds of string the code writes apart.
 */
module BrowserStorage {
  import opened Wrappers

  /** The user object the client caches (`JSON.stringify` of it). */
  datatype BrowserUser = BrowserUser(id: string, username: string, name: string, createdAt: string)

  /**
   * A stored string: the JSON text of a user, the decimal text of a
   * millisecond timestamp, or any other text (a session token, or text that
   * is not a serialised user).
   */
  datatype Stored = UserJson(user: BrowserUser) | Millis(t: int) | Text(s: string)

  datatype BrowserState = BrowserState(local: map<string, Stored>, session: map<string, Stored>)

  /** JavaScript truthiness of a stored string: only the empty string is falsy. */
  predicate Truthy(v: Stored) {
    !(v.Text? && v.s == "")
  }

  /** `JSON.parse` of a stored string read as a user: only a serialised user parses. */
  function ParseUser(v: Stored): Option<BrowserUser> {
    if v.UserJson? then Some(v.user) else None
  }

  /** `parseInt` of a stored string: a timestamp's number, or `NaN`. */
  function ParseMillis(v: Stored): Option<int> {
    if v.Millis? then Some(v.t) else None
  }

  /** The value under `key` when the key is present and its value truthy. */
  function GetTruthy(m: map<string, Stored>, key: string): (r: Option<Stored>)
    ensures r.Some? <==> key in m && Truthy(m[key])
    ensures r.Some? ==> r.value == m[key]
  {
    if key in m && Truthy(m[key]) then Some(m[key]) else None
  }

  /** The two storages of one browser. */
  class Browser {
    var local: map<string, Stored>
    var session: map<string, Stored>

    function State(): BrowserState
      reads this
    {
      BrowserState(local, session)
    }

    constructor (local: map<string, Stored>, session: map<string, Stored>)
      ensures State() == BrowserState(local, session)
    {
      this.local := local;
      this.session := session;
    }
  }
}
