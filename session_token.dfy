/**
 * The bearer-token lookup every service call starts with: the `token` storage
 * key if it holds a non-empty string, else the `token` member of the stored
 * user, else none. Parsing the stored user can throw.
 */
module SessionToken {
  import opened Wrappers
  import Json
  import AuthContext

  datatype Lookup = Found(token: string) | Missing | Unreadable

  /** The token a service call would use with this storage. */
  function StoredToken(storage: map<string, string>): (r: Lookup)
    ensures r.Found? ==> r.token != ""
    ensures AuthContext.TokenKey in storage && storage[AuthContext.TokenKey] != "" ==> r == Found(storage[AuthContext.TokenKey])
    ensures r.Unreadable? ==> AuthContext.StoredUser(storage).ParseError?
  {
    var direct := if AuthContext.TokenKey in storage then storage[AuthContext.TokenKey] else "";
    if direct != "" then Found(direct)
    else if AuthContext.UserKey in storage && storage[AuthContext.UserKey] != "" then
      match Json.Parse(storage[AuthContext.UserKey])
      case None => Unreadable
      case Some(ms) =>
        var t := Json.Get(ms, "token").GetOr("");
        if t != "" then Found(t) else Missing
    else Missing
  }

  /** `let token = ...; if (!token) { ... token = user.token }`, step by step. */
  method ReadToken(storage: map<string, string>) returns (r: Lookup)
    ensures r == StoredToken(storage)
  {
    var token := if AuthContext.TokenKey in storage then storage[AuthContext.TokenKey] else "";
    if token == "" {
      var userStr := if AuthContext.UserKey in storage then storage[AuthContext.UserKey] else "";
      if userStr != "" {
        var user := Json.Parse(userStr);
        if user.None? {
          return Unreadable;
        }
        token := Json.Get(user.value, "token").GetOr("");
      }
    }
    if token == "" {
      return Missing;
    }
    return Found(token);
  }

  /** After signing in, every call carries the token of the signed-in user. */
  lemma TokenAfterSignIn(storage: map<string, string>, u: AuthContext.User)
    requires u.token != ""
    ensures StoredToken(AuthContext.SignedInStorage(storage, u)) == Found(u.token)
  {
  }

  /** After signing out, no call has a token. */
  lemma TokenAfterSignOut(storage: map<string, string>)
    ensures StoredToken(AuthContext.SignedOutStorage(storage)) == Missing
  {
  }

  /** With the `token` key empty or absent, the token is the stored user's. */
  lemma TokenFromStoredUser(storage: map<string, string>, u: AuthContext.User)
    requires AuthContext.TokenKey !in storage || storage[AuthContext.TokenKey] == ""
    requires AuthContext.UserKey in storage && storage[AuthContext.UserKey] == AuthContext.SerializeUser(u)
    ensures StoredToken(storage) == if u.token != "" then Found(u.token) else Missing
  {
    AuthContext.UserRoundTrip(u);
  }
}
