/** `AppContextProvider`: the session held by the application, initialised
    from storage, with `isAuthenticated`, `logout` and the mount effect. */
module AppContext {
  import opened Common
  import opened Types
  import opened Storage
  import opened UserCodec
  import AuthService

  /** `!!token && !!userData`. */
  predicate Authenticated(token: Option<string>, userData: Option<User>) {
    Truthy(token) && userData.Some?
  }

  /** The session is authenticated only when both halves are held. */
  lemma AuthenticatedNeedsBoth(token: Option<string>, userData: Option<User>)
    ensures Authenticated(token, userData) ==> token.Some? && token.value != "" && userData.Some?
    ensures token.None? || userData.None? ==> !Authenticated(token, userData)
  {
  }

  /** The context's state variables. */
  datatype Fields = Fields(
    isLoading: bool,
    token: Option<string>,
    userData: Option<User>,
    skinProfile: Option<SkinProfile>)

  /** The state of the first render: the stored token and `getCurrentUser()`.
      The stored user text must parse, or the render throws. */
  function Initial(m: map<string, string>): (f: Fields)
    requires AuthService.GetCurrentUser(m).Ok?
    ensures !f.isLoading && f.skinProfile.None?
    ensures f.token == GetItem(m, TokenKey)
    ensures f.userData == AuthService.GetCurrentUser(m).value
  {
    Fields(false, GetItem(m, TokenKey), AuthService.GetCurrentUser(m).value, None)
  }

  /** The mount effect: when both keys hold non-empty text, the token and the
      parsed user replace the state; otherwise nothing changes and nothing is fetched. */
  function Mounted(f: Fields, m: map<string, string>): (r: Fields)
    requires AuthService.GetCurrentUser(m).Ok?
  {
    var token := GetItem(m, TokenKey);
    if Truthy(token) && Truthy(GetItem(m, UserKey))
    then f.(token := token, userData := AuthService.GetCurrentUser(m).value)
    else f
  }

  /** Running the mount effect right after the first render changes nothing:
      it never repairs a state the first render got wrong. */
  lemma MountAfterInitialIsNoop(m: map<string, string>)
    requires AuthService.GetCurrentUser(m).Ok?
    ensures Mounted(Initial(m), m) == Initial(m)
  {
  }

  /** A stored token without a stored user is not a session, before or after the mount effect. */
  lemma TokenWithoutUserIsLoggedOut(m: map<string, string>)
    requires AuthService.GetCurrentUser(m).Ok?
    requires !Truthy(GetItem(m, UserKey))
    ensures !Authenticated(Initial(m).token, Initial(m).userData)
    ensures var f := Mounted(Initial(m), m); !Authenticated(f.token, f.userData)
  {
  }

  /** After a successful login with a non-empty token, a fresh load is authenticated as that user. */
  lemma LoadAfterLogin(m: map<string, string>, data: AuthResponse)
    requires data.success && data.token != ""
    ensures AuthService.GetCurrentUser(AuthService.StoreSession(m, data)).Ok?
    ensures var f := Initial(AuthService.StoreSession(m, data));
      Authenticated(f.token, f.userData) && f.userData == Some(data.user)
  {
    AuthService.CurrentUserAfterLogin(m, data);
  }

  class Session {
    var isLoading: bool
    var token: Option<string>
    var userData: Option<User>
    var skinProfile: Option<SkinProfile>

    function State(): Fields
      reads this
    {
      Fields(isLoading, token, userData, skinProfile)
    }

    predicate IsAuthenticated()
      reads this
    {
      Authenticated(token, userData)
    }

    /** The provider's first render. */
    constructor(b: Browser)
      requires AuthService.GetCurrentUser(b.storage).Ok?
      ensures State() == Initial(b.storage)
    {
      isLoading := false;
      token := GetItem(b.storage, TokenKey);
      userData := AuthService.GetCurrentUser(b.storage).value;
      skinProfile := None;
    }

    /** `logout()`: storage cleared and all three session fields null. */
    method Logout(b: Browser)
      modifies this, b
      ensures b.storage == Cleared(old(b.storage)) && b.location == old(b.location)
      ensures token.None? && userData.None? && skinProfile.None? && isLoading == old(isLoading)
      ensures !IsAuthenticated()
    {
      AuthService.Logout(b);
      token := None;
      userData := None;
      skinProfile := None;
    }

    /** The effect that runs once on mount. */
    method MountEffect(b: Browser)
      requires AuthService.GetCurrentUser(b.storage).Ok?
      modifies this
      ensures State() == Mounted(old(State()), b.storage)
    {
      var storedToken := GetItem(b.storage, TokenKey);
      var storedUser := GetItem(b.storage, UserKey);
      if Truthy(storedToken) && Truthy(storedUser) {
        token := storedToken;
        userData := AuthService.GetCurrentUser(b.storage).value;
      }
    }

    method SetSkinProfile(p: Option<SkinProfile>)
      modifies this
      ensures State() == old(State()).(skinProfile := p)
    {
      skinProfile := p;
    }

    method SetUserData(u: Option<User>)
      modifies this
      ensures State() == old(State()).(userData := u)
    {
      userData := u;
    }

    method SetIsLoading(v: bool)
      modifies this
      ensures State() == old(State()).(isLoading := v)
    {
      isLoading := v;
    }
  }
}
