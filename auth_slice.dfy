/**
 * The authentication slice: the signed-in user, the two tokens and a
 * display name, kept alongside a cookie store that outlives the page.
 * Decoding a token is a function supplied by the caller.
 */
module AuthSlice {
  import opened Wrappers

  /** The two auth cookies, and any other cookie the browser holds. */
  datatype CookieName = AccessCookie | RefreshCookie | OtherCookie(name: string)

  /** The claims decoded from an access token. */
  type User = map<string, string>

  /** A snapshot of the slice's four fields; also the payload of `setUser` and `updateUser`. */
  datatype AuthState = AuthState(user: Option<User>, accessToken: Option<string>,
                                 refreshToken: Option<string>, userName: Option<string>)

  /** `getCookie`: the stored value, if any. */
  function GetCookie(cookies: map<CookieName, string>, name: CookieName): Option<string> {
    if name in cookies then Some(cookies[name]) else None
  }

  /** The slice's initial state: both tokens from the cookies, the user decoded from the access token, no name. */
  function InitialState(cookies: map<CookieName, string>, decode: Option<string> -> Option<User>): (s: AuthState)
    ensures s.accessToken == GetCookie(cookies, AccessCookie) && s.refreshToken == GetCookie(cookies, RefreshCookie)
    ensures s.user == decode(s.accessToken) && s.userName == None
  {
    var access := GetCookie(cookies, AccessCookie);
    AuthState(decode(access), access, GetCookie(cookies, RefreshCookie), None)
  }

  /** The cookie store after `setUser`: both tokens written when both are non-empty, else untouched. */
  function CookiesAfterSetUser(cookies: map<CookieName, string>, p: AuthState): (r: map<CookieName, string>)
    ensures Present(p.accessToken) && Present(p.refreshToken) ==>
      GetCookie(r, AccessCookie) == p.accessToken && GetCookie(r, RefreshCookie) == p.refreshToken
    ensures !(Present(p.accessToken) && Present(p.refreshToken)) ==> r == cookies
    ensures r.Keys == cookies.Keys + (if r == cookies then {} else {AccessCookie, RefreshCookie})
    ensures forall n: CookieName :: n.OtherCookie? && n in cookies ==> n in r && r[n] == cookies[n]
  {
    if Present(p.accessToken) && Present(p.refreshToken) then
      cookies[AccessCookie := p.accessToken.value][RefreshCookie := p.refreshToken.value]
    else cookies
  }

  /** The state after logging out: every field null. */
  const LoggedOut := AuthState(None, None, None, None)

  class AuthSlice {
    var user: Option<User>
    var accessToken: Option<string>
    var refreshToken: Option<string>
    var userName: Option<string>
    var cookies: map<CookieName, string>

    /** The four fields as one value. */
    function State(): AuthState
      reads this
    {
      AuthState(user, accessToken, refreshToken, userName)
    }

    /** Loading the slice with the cookies found in the browser. */
    constructor (cookies: map<CookieName, string>, decode: Option<string> -> Option<User>)
      ensures State() == InitialState(cookies, decode)
      ensures this.cookies == cookies
    {
      var access := GetCookie(cookies, AccessCookie);
      user := decode(access);
      accessToken := access;
      refreshToken := GetCookie(cookies, RefreshCookie);
      userName := None;
      this.cookies := cookies;
    }

    /** `setUser`: user and both tokens from the payload, the name kept, cookies written conditionally. */
    method SetUser(p: AuthState)
      modifies this
      ensures State() == AuthState(p.user, p.accessToken, p.refreshToken, old(userName))
      ensures cookies == CookiesAfterSetUser(old(cookies), p)
    {
      user := p.user;
      accessToken := p.accessToken;
      refreshToken := p.refreshToken;
      if Present(p.accessToken) && Present(p.refreshToken) {
        cookies := cookies[AccessCookie := p.accessToken.value];
        cookies := cookies[RefreshCookie := p.refreshToken.value];
      }
    }

    /** `updateUser`: the same effect as `setUser`. */
    method UpdateUser(p: AuthState)
      modifies this
      ensures State() == AuthState(p.user, p.accessToken, p.refreshToken, old(userName))
      ensures cookies == CookiesAfterSetUser(old(cookies), p)
    {
      user := p.user;
      accessToken := p.accessToken;
      refreshToken := p.refreshToken;
      if Present(p.accessToken) && Present(p.refreshToken) {
        cookies := cookies[AccessCookie := p.accessToken.value];
        cookies := cookies[RefreshCookie := p.refreshToken.value];
      }
    }

    /** `setUserName`: only the name changes. */
    method SetUserName(name: string)
      modifies this`userName
      ensures userName == Some(name)
    {
      userName := Some(name);
    }

    /** `logout`: every field null and both cookies removed; other cookies stay. */
    method Logout()
      modifies this
      ensures State() == LoggedOut
      ensures cookies == old(cookies) - {AccessCookie, RefreshCookie}
    {
      user := None;
      accessToken := None;
      refreshToken := None;
      userName := None;
      cookies := cookies - {AccessCookie};
      cookies := cookies - {RefreshCookie};
    }

    /** `selectCurrentToken`. */
    function SelectCurrentToken(): (token: Option<string>)
      reads this
      ensures token == State().accessToken
    {
      accessToken
    }

    /** `selectCurrentUser`. */
    function SelectCurrentUser(): (u: Option<User>)
      reads this
      ensures u == State().user
    {
      user
    }
  }

  // ---------------------------------------------------------------------------
  // Scenarios: a session, and the page reloaded from the cookies it left

  /**
   * Signing in with both tokens survives a reload: the reloaded slice has
   * the same tokens and the user decoded from the access token.
   */
  method SignInSurvivesReload(cookies: map<CookieName, string>, decode: Option<string> -> Option<User>, p: AuthState)
    returns (token: Option<string>, refresh: Option<string>, user: Option<User>)
    requires Present(p.accessToken) && Present(p.refreshToken)
    ensures token == p.accessToken && refresh == p.refreshToken
    ensures user == decode(p.accessToken)
  {
    var slice := new AuthSlice(cookies, decode);
    slice.SetUser(p);
    var reloaded := new AuthSlice(slice.cookies, decode);
    token, refresh, user := reloaded.SelectCurrentToken(), reloaded.refreshToken, reloaded.SelectCurrentUser();
  }

  /**
   * Setting a user without both tokens leaves the old cookies in place, so
   * a reload brings back the previous session's tokens.
   */
  method PartialSignInReloadsOldSession(cookies: map<CookieName, string>, decode: Option<string> -> Option<User>, p: AuthState)
    returns (before: Option<string>, reloaded: Option<string>)
    requires !Present(p.refreshToken)
    ensures before == p.accessToken
    ensures reloaded == GetCookie(cookies, AccessCookie)
  {
    var slice := new AuthSlice(cookies, decode);
    slice.SetUser(p);
    before := slice.SelectCurrentToken();
    var again := new AuthSlice(slice.cookies, decode);
    reloaded := again.SelectCurrentToken();
  }

  /** Logging out twice is logging out once, and a reload after it finds no session. */
  method LogoutIsFinal(cookies: map<CookieName, string>, decode: Option<string> -> Option<User>, p: AuthState)
    returns (once: AuthState, twice: AuthState, reloaded: AuthState)
    ensures once == LoggedOut && twice == LoggedOut
    ensures reloaded == AuthState(decode(None), None, None, None)
  {
    var slice := new AuthSlice(cookies, decode);
    slice.SetUser(p);
    slice.Logout();
    once := slice.State();
    slice.Logout();
    twice := slice.State();
    var again := new AuthSlice(slice.cookies, decode);
    reloaded := again.State();
  }

  /** Signing in and out touches only the two auth cookies; every other cookie is kept. */
  method OtherCookiesSurviveLogout(cookies: map<CookieName, string>, decode: Option<string> -> Option<User>, p: AuthState)
    returns (left: map<CookieName, string>)
    ensures AccessCookie !in left && RefreshCookie !in left
    ensures forall n: CookieName :: n in cookies && n.OtherCookie? ==> n in left && left[n] == cookies[n]
    ensures forall n :: n in left ==> n in cookies
  {
    var slice := new AuthSlice(cookies, decode);
    slice.SetUser(p);
    slice.Logout();
    left := slice.cookies;
  }

  /** A name set before signing in is kept by `setUser`. */
  method NameSurvivesSetUser(cookies: map<CookieName, string>, decode: Option<string> -> Option<User>, name: string, p: AuthState)
    returns (kept: Option<string>)
    ensures kept == Some(name)
  {
    var slice := new AuthSlice(cookies, decode);
    slice.SetUserName(name);
    slice.SetUser(p);
    kept := slice.userName;
  }
}
