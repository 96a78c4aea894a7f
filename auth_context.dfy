/** The authentication session: five pieces of in-memory state mirrored in three
    keys of the browser's local storage, modelled here as a finite map. Decoding
    and encoding of the stored user record (`JSON.parse`, `JSON.stringify`) are
    given to the session as functions; `parse` answers None where `JSON.parse`
    throws. */
module AuthContext {
  import opened Common

  const TokenKey := "perfume_auth_token"
  const UserDataKey := "perfume_user_data"
  const UserTypeKey := "perfume_user_type"

  /** The user record kept in the session; these are the fields the pages read. */
  datatype User = User(name: Option<string>, email: Option<string>, phoneNumber: Option<string>)

  type Storage = map<string, string>

  /** `localStorage.getItem(key)` is truthy: the key is there and its value is not "". */
  predicate Stored(st: Storage, key: string) {
    key in st && st[key] != ""
  }

  /** The start-up guard: all three keys hold something, and neither the token nor the
      user record is the text "undefined" (what `setItem` writes for a missing value). */
  predicate RestoreGuard(st: Storage) {
    && Stored(st, TokenKey) && Stored(st, UserDataKey) && Stored(st, UserTypeKey)
    && st[UserDataKey] != "undefined" && st[TokenKey] != "undefined"
  }

  /** What the start-up effect makes of the stored session. */
  datatype Restoration =
    | Skipped                                               // the guard failed: nothing is set
    | Restored(user: User, userType: string, token: string) // the session is taken over
    | Discarded                                             // the user record does not parse

  function Restore(st: Storage, parse: string -> Option<User>): (r: Restoration)
    ensures r.Skipped? <==> !RestoreGuard(st)
    ensures r.Discarded? <==> RestoreGuard(st) && parse(st[UserDataKey]).None?
    ensures r.Restored? ==> RestoreGuard(st) && parse(st[UserDataKey]) == Some(r.user)
                            && r.userType == st[UserTypeKey] && r.token == st[TokenKey]
  {
    if !RestoreGuard(st) then Skipped
    else match parse(st[UserDataKey])
      case Some(u) => Restored(u, st[UserTypeKey], st[TokenKey])
      case None => Discarded
  }

  /** Storage after the three session keys are removed. */
  function Cleared(st: Storage): (r: Storage)
    ensures TokenKey !in r && UserDataKey !in r && UserTypeKey !in r
    ensures forall k :: k in st && k != TokenKey && k != UserDataKey && k != UserTypeKey ==> k in r && r[k] == st[k]
    ensures r.Keys <= st.Keys
  {
    st - {TokenKey, UserDataKey, UserTypeKey}
  }

  /** Storage after `login` has written the three session keys. */
  function LoggedIn(st: Storage, token: string, userText: string, userType: string): (r: Storage)
    ensures TokenKey in r && r[TokenKey] == token
    ensures UserDataKey in r && r[UserDataKey] == userText
    ensures UserTypeKey in r && r[UserTypeKey] == userType
    ensures forall k :: k in st && k != TokenKey && k != UserDataKey && k != UserTypeKey ==> k in r && r[k] == st[k]
    ensures r.Keys == st.Keys + {TokenKey, UserDataKey, UserTypeKey}
  {
    st[TokenKey := token][UserDataKey := userText][UserTypeKey := userType]
  }

  /** The headers for an API call: always a JSON content type, and a bearer
      credential exactly when there is a (truthy) token. */
  function AuthHeaders(token: Option<string>): (h: map<string, string>)
    ensures "Content-Type" in h && h["Content-Type"] == "application/json"
    ensures "Authorization" in h <==> Truthy(token)
    ensures Truthy(token) ==> h["Authorization"] == "Bearer " + token.value
    ensures h.Keys <= {"Content-Type", "Authorization"}
  {
    if Truthy(token)
    then map["Authorization" := "Bearer " + token.value, "Content-Type" := "application/json"]
    else map["Content-Type" := "application/json"]
  }

  /** A page reload after `login` restores exactly the session that was logged in,
      provided the stored texts pass the start-up guard. */
  lemma ReloadAfterLogin(st: Storage, token: string, u: User, userType: string,
                         stringify: User -> string, parse: string -> Option<User>)
    requires parse(stringify(u)) == Some(u)
    requires token != "" && token != "undefined" && userType != ""
    requires stringify(u) != "" && stringify(u) != "undefined"
    ensures Restore(LoggedIn(st, token, stringify(u), userType), parse) == Restored(u, userType, token)
  {
  }

  /** A page reload after `logout` (or `clearAuth`) restores nothing. */
  lemma ReloadAfterLogout(st: Storage, parse: string -> Option<User>)
    ensures Restore(Cleared(st), parse) == Skipped
  {
  }

  class AuthSession {
    var user: Option<User>
    var userType: Option<string>
    var token: Option<string>
    var isAuthenticated: bool
    var isLoading: bool
    var storage: Storage
    const stringify: User -> string
    const parse: string -> Option<User>

    /** The two session states: anonymous (nothing set) and authenticated (all set). */
    ghost predicate Valid()
      reads this
    {
      && (isAuthenticated <==> user.Some?)
      && (isAuthenticated <==> userType.Some?)
      && (isAuthenticated <==> token.Some?)
    }

    /** The initial state of the provider, before the start-up effect has run. */
    constructor (storage: Storage, stringify: User -> string, parse: string -> Option<User>)
      ensures Valid() && isLoading && !isAuthenticated
      ensures this.storage == storage && this.stringify == stringify && this.parse == parse
    {
      user, userType, token := None, None, None;
      isAuthenticated, isLoading := false, true;
      this.storage, this.stringify, this.parse := storage, stringify, parse;
    }

    /** The start-up effect: take the session over from storage when the guard
        holds, discard it when the user record does not parse, and stop loading. */
    method Initialize()
      requires Valid()
      modifies this
      ensures Valid() && !isLoading
      ensures match Restore(old(storage), parse)
        case Skipped =>
          && storage == old(storage) && user == old(user) && userType == old(userType)
          && token == old(token) && isAuthenticated == old(isAuthenticated)
        case Restored(u, t, k) =>
          && storage == old(storage) && user == Some(u) && userType == Some(t)
          && token == Some(k) && isAuthenticated
        case Discarded =>
          && storage == Cleared(old(storage)) && user == None && userType == None
          && token == None && !isAuthenticated
    {
      if RestoreGuard(storage) {
        match parse(storage[UserDataKey])
        case Some(u) =>
          user := Some(u);
          userType := Some(storage[UserTypeKey]);
          token := Some(storage[TokenKey]);
          isAuthenticated := true;
        case None =>
          ClearAuth();
      }
      isLoading := false;
    }

    /** Write the three keys and enter the authenticated state. */
    method Login(token: string, userData: User, userType: string := "user")
      modifies this
      ensures Valid() && isAuthenticated
      ensures this.token == Some(token) && user == Some(userData) && this.userType == Some(userType)
      ensures storage == LoggedIn(old(storage), token, stringify(userData), userType)
      ensures isLoading == old(isLoading)
    {
      storage := LoggedIn(storage, token, stringify(userData), userType);
      user := Some(userData);
      this.userType := Some(userType);
      this.token := Some(token);
      isAuthenticated := true;
    }

    /** Remove the three keys and return to the anonymous state. */
    method Logout()
      modifies this
      ensures Valid() && !isAuthenticated
      ensures user == None && userType == None && token == None
      ensures storage == Cleared(old(storage)) && isLoading == old(isLoading)
    {
      storage := Cleared(storage);
      user, userType, token := None, None, None;
      isAuthenticated := false;
    }

    /** The error-path reset; its effect is that of `Logout`. */
    method ClearAuth()
      modifies this
      ensures Valid() && !isAuthenticated
      ensures user == None && userType == None && token == None
      ensures storage == Cleared(old(storage)) && isLoading == old(isLoading)
    {
      storage := Cleared(storage);
      user, userType, token := None, None, None;
      isAuthenticated := false;
    }

    /** The in-memory token when it is truthy, otherwise whatever storage holds. */
    function GetAuthToken(): (t: Option<string>)
      reads this
      ensures Truthy(token) ==> t == token
      ensures !Truthy(token) && TokenKey in storage ==> t == Some(storage[TokenKey])
      ensures !Truthy(token) && TokenKey !in storage ==> t == None
    {
      if Truthy(token) then token
      else if TokenKey in storage then Some(storage[TokenKey])
      else None
    }

    function GetAuthHeaders(): (h: map<string, string>)
      reads this
      ensures "Content-Type" in h && h["Content-Type"] == "application/json"
      ensures "Authorization" in h <==> Truthy(GetAuthToken())
      ensures "Authorization" in h ==> h["Authorization"] == "Bearer " + GetAuthToken().value
    {
      AuthHeaders(GetAuthToken())
    }

    /** Handle a failed API call: a 401 clears the session and sends the browser to
        the login page; any other failure leaves everything as it was. `status` is
        None when the failure carries no HTTP response. */
    method ValidateToken(status: Option<int>) returns (valid: bool, redirect: Option<string>)
      modifies this
      ensures valid <==> status != Some(401)
      ensures valid ==> redirect == None && unchanged(this)
      ensures !valid ==> redirect == Some("/login") && !isAuthenticated && Valid()
      ensures !valid ==> user == None && userType == None && token == None
      ensures !valid ==> storage == Cleared(old(storage)) && isLoading == old(isLoading)
    {
      if status == Some(401) {
        ClearAuth();
        return false, Some("/login");
      }
      return true, None;
    }

    function IsUser(): (b: bool)
      reads this
      ensures b <==> userType == Some("user")
    {
      userType == Some("user")
    }
  }

  /** A login with the default type makes the session a plain user's, and a
      logout ends that. */
  method UserTypeAcrossLogin(session: AuthSession, token: string, u: User)
      returns (afterLogin: bool, afterLogout: bool)
    modifies session
    ensures afterLogin && !afterLogout
  {
    session.Login(token, u);
    afterLogin := session.IsUser();
    session.Logout();
    afterLogout := session.IsUser();
  }
}
