/**
 * The mock session holder (src/components/AuthContext.jsx): the signed-in
 * user, the start-up `loading` flag, and the two browser-storage keys `user`
 * and `token`. Storage is a map from keys to strings; `Date.now()` is the
 * parameter `now`.
 */
module AuthContext {
  import opened Wrappers
  import opened Text
  import Json

  const UserKey := "user"
  const TokenKey := "token"
  const TokenPrefix := "mock_token_"

  /** What the login forms pass to `login` and `register`. */
  datatype UserData = UserData(name: string, email: string, id: string)

  /** `{...userData, token}`: the signed-in user. */
  datatype User = User(name: string, email: string, id: string, token: string)

  /** `mock_token_${now}_${email.replace('@', '_')}` */
  function MockToken(email: string, now: nat): (r: string)
    ensures TokenPrefix <= r && |r| > |TokenPrefix| + |email|
  {
    TokenPrefix + NatToString(now) + "_" + ReplaceFirst(email, '@', '_')
  }

  /**
   * The token starts with the fixed prefix, then the timestamp's digits, then `_`,
   * then the e-mail with only its first `@` turned into `_`; so it is never empty.
   */
  lemma MockTokenShape(email: string, now: nat)
    ensures var t := MockToken(email, now);
      var digits := NatToString(now);
      t != "" &&
      t[..|TokenPrefix|] == TokenPrefix &&
      t[|TokenPrefix|..|TokenPrefix| + |digits|] == digits &&
      DigitsValue(digits) == now &&
      t[|TokenPrefix| + |digits|] == '_' &&
      |t| == |TokenPrefix| + |digits| + 1 + |email| &&
      (forall i :: 0 <= i < |email| ==> t[|TokenPrefix| + |digits| + 1 + i] == (if '@' in email && i == IndexOf(email, '@') then '_' else email[i]))
  {
    NatToStringRoundTrip(now);
    var t := MockToken(email, now);
    var digits := NatToString(now);
    var n := |TokenPrefix| + |digits| + 1;
    var rest := ReplaceFirst(email, '@', '_');
    assert t == TokenPrefix + digits + "_" + rest;
    assert t[..|TokenPrefix|] == TokenPrefix;
    assert t[|TokenPrefix|..|TokenPrefix| + |digits|] == digits;
    assert t[n..] == rest;
    forall i | 0 <= i < |email|
      ensures t[n + i] == (if '@' in email && i == IndexOf(email, '@') then '_' else email[i])
    {
      assert t[n + i] == rest[i];
      ReplacedAt(email, i);
    }
  }

  /** One character of the e-mail after its first `@` is made `_`. */
  lemma ReplacedAt(email: string, i: int)
    requires 0 <= i < |email|
    ensures ReplaceFirst(email, '@', '_')[i] == (if '@' in email && i == IndexOf(email, '@') then '_' else email[i])
  {
    ReplaceFirstSpec(email, '@', '_');
  }

  function WithToken(data: UserData, token: string): User {
    User(data.name, data.email, data.id, token)
  }

  /** The user record `login` and `register` build. */
  function SessionUser(data: UserData, now: nat): (u: User)
    ensures u.name == data.name && u.email == data.email && u.id == data.id
    ensures u.token == MockToken(data.email, now) && u.token != ""
  {
    WithToken(data, MockToken(data.email, now))
  }

  // ---------------------------------------------------------------------
  // The stored form of a user

  function UserMembers(u: User): seq<Json.Member> {
    [("name", u.name), ("email", u.email), ("id", u.id), ("token", u.token)]
  }

  /** `JSON.stringify(user)` */
  function SerializeUser(u: User): string {
    Json.Stringify(UserMembers(u))
  }

  /** The user record read back from a parsed object; a missing member reads as "". */
  function UserOf(ms: seq<Json.Member>): User {
    User(Json.Get(ms, "name").GetOr(""), Json.Get(ms, "email").GetOr(""),
         Json.Get(ms, "id").GetOr(""), Json.Get(ms, "token").GetOr(""))
  }

  /** A stored user parses back to the same record, and its `token` member is the user's token. */
  lemma UserRoundTrip(u: User)
    ensures Json.Parse(SerializeUser(u)) == Some(UserMembers(u))
    ensures UserOf(UserMembers(u)) == u
    ensures Json.Get(UserMembers(u), "token") == Some(u.token)
  {
    Json.ParseStringify(UserMembers(u));
    var ms := UserMembers(u);
    assert ms[..3] == [("name", u.name), ("email", u.email), ("id", u.id)];
    assert ms[..3][..2] == [("name", u.name), ("email", u.email)];
    assert ms[..3][..2][..1] == [("name", u.name)];
    assert Json.Get(ms, "id") == Some(u.id);
    assert Json.Get(ms[..3], "email") == Json.Get(ms[..3][..2], "email") == Some(u.email);
    assert Json.Get(ms[..3][..2], "name") == Json.Get(ms[..3][..2][..1], "name") == Some(u.name);
    assert Json.Get(ms, "name") == Some(u.name);
    assert Json.Get(ms, "email") == Some(u.email);
    assert Json.Get(ms, "token") == Some(u.token);
  }

  /** Storage after `login`/`register` of `u`: `user` holds the serialised user, `token` its token. */
  function SignedInStorage(storage: map<string, string>, u: User): (s: map<string, string>)
    ensures s.Keys == storage.Keys + {UserKey, TokenKey}
    ensures s[UserKey] == SerializeUser(u) && s[TokenKey] == u.token
    ensures forall k :: k in storage && k != UserKey && k != TokenKey ==> s[k] == storage[k]
  {
    storage[UserKey := SerializeUser(u)][TokenKey := u.token]
  }

  /** Storage after `logout`: both keys removed, every other key untouched. */
  function SignedOutStorage(storage: map<string, string>): (s: map<string, string>)
    ensures s.Keys == storage.Keys - {UserKey, TokenKey}
    ensures forall k :: k in s ==> s[k] == storage[k]
  {
    storage - {UserKey, TokenKey}
  }

  /** What the start-up effect finds in storage. */
  datatype Startup = Restored(user: User) | Anonymous | ParseError

  /** `if (storedUser) setUser(JSON.parse(storedUser))`; an unreadable entry makes `JSON.parse` throw. */
  function StoredUser(storage: map<string, string>): (r: Startup)
    ensures r.Anonymous? <==> UserKey !in storage || storage[UserKey] == ""
    ensures r.Restored? ==> Json.Parse(storage[UserKey]).Some?
  {
    if UserKey in storage && storage[UserKey] != "" then
      match Json.Parse(storage[UserKey])
      case None => ParseError
      case Some(ms) => Restored(UserOf(ms))
    else Anonymous
  }

  /** A reload after signing in restores exactly the signed-in user. */
  lemma RestoreAfterSignIn(storage: map<string, string>, u: User)
    ensures StoredUser(SignedInStorage(storage, u)) == Restored(u)
  {
    UserRoundTrip(u);
  }

  /** A reload after signing out finds nobody. */
  lemma RestoreAfterSignOut(storage: map<string, string>)
    ensures StoredUser(SignedOutStorage(storage)) == Anonymous
  {
  }

  // ---------------------------------------------------------------------
  // The state holder

  class AuthProvider {
    var user: Option<User>
    var loading: bool
    var storage: map<string, string>

    /** The provider as first rendered: nobody signed in, still loading, storage as found. */
    constructor (found: map<string, string>)
      ensures user == None && loading && storage == found
    {
      user := None;
      loading := true;
      storage := found;
    }

    /**
     * The mount effect: restores the stored user when the `user` key holds a non-empty value,
     * and ends `loading` either way, unless `JSON.parse` throws first.
     */
    method RestoreSession()
      modifies this
      ensures storage == old(storage)
      ensures StoredUser(storage).Restored? ==> user == Some(StoredUser(storage).user) && !loading
      ensures StoredUser(storage).Anonymous? ==> user == old(user) && !loading
      ensures StoredUser(storage).ParseError? ==> user == old(user) && loading == old(loading)
    {
      var storedUser := if UserKey in storage then storage[UserKey] else "";
      if storedUser != "" {
        match Json.Parse(storedUser)
        case None =>
          return;
        case Some(ms) =>
          user := Some(UserOf(ms));
      }
      loading := false;
    }

    method Login(userData: UserData, now: nat) returns (ok: bool)
      modifies this
      ensures ok
      ensures user == Some(SessionUser(userData, now))
      ensures storage == SignedInStorage(old(storage), user.value)
      ensures loading == old(loading)
    {
      var mockToken := MockToken(userData.email, now);
      var userWithToken := WithToken(userData, mockToken);
      user := Some(userWithToken);
      storage := storage[UserKey := SerializeUser(userWithToken)];
      storage := storage[TokenKey := mockToken];
      ok := true;
    }

    method Register(userData: UserData, now: nat) returns (ok: bool)
      modifies this
      ensures ok
      ensures user == Some(SessionUser(userData, now))
      ensures storage == SignedInStorage(old(storage), user.value)
      ensures loading == old(loading)
    {
      var mockToken := MockToken(userData.email, now);
      var userWithToken := WithToken(userData, mockToken);
      user := Some(userWithToken);
      storage := storage[UserKey := SerializeUser(userWithToken)];
      storage := storage[TokenKey := mockToken];
      ok := true;
    }

    method Logout()
      modifies this
      ensures user == None
      ensures storage == SignedOutStorage(old(storage))
      ensures loading == old(loading)
    {
      user := None;
      storage := storage - {UserKey};
      storage := storage - {TokenKey};
    }

    /** `isAuthenticated: !!user` */
    function IsAuthenticated(): (r: bool)
      reads this
      ensures r <==> user.Some?
    {
      user.Some?
    }
  }
}
