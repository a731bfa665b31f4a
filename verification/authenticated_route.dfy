/**
 * The `_authenticated` layout route: its `beforeLoad` guard and its logout handler.
 */
module AuthenticatedRoute {
  import opened Wrappers
  import opened AuthProvider
  import opened App

  /** What `beforeLoad` decides: let the route load, or redirect with a `redirect` search parameter. */
  datatype Decision = Proceed | Redirect(to: string, redirectSearch: string)

  /**
   * The guard: while loading it never redirects; once loaded it redirects to the
   * login page, carrying the current location unchanged, exactly when no user is signed in.
   */
  function BeforeLoad(isLoading: bool, isAuthenticated: bool, href: string): (d: Decision)
    ensures d.Redirect? <==> !isLoading && !isAuthenticated
    ensures isLoading ==> d == Proceed
    ensures d.Redirect? ==> d.to == LoginPath && d.redirectSearch == href
  {
    if isLoading then Proceed
    else if !isAuthenticated then Redirect(LoginPath, href)
    else Proceed
  }

  /** The guard evaluated against the controller's state. */
  function Guard(m: Machine, href: string): Decision {
    BeforeLoad(m.isLoading, IsAuthenticated(m.auth), href)
  }

  /**
   * `handleLogout`: log out, then navigate to the login page. The navigation is
   * issued against the state the logout left behind.
   */
  function HandleLogout(m: Machine): (t: Transition)
    ensures t.commands == [NavigateTo(LoginPath)]
    ensures t.next.auth == Logout(m.auth)
    ensures t.next.isLoading == m.isLoading && t.next.hasTriedRefresh == m.hasTriedRefresh
  {
    Transition(m.(auth := Logout(m.auth)), [NavigateTo(LoginPath)])
  }

  /** Once loading is over, the guard redirects to the login page after `handleLogout`. */
  lemma GuardAfterLogout(m: Machine, href: string)
    requires !m.isLoading
    ensures Guard(HandleLogout(m).next, href) == Redirect(LoginPath, href)
  {
  }

  /**
   * After the getMe error that logs out (an access token and no refresh token),
   * the guard redirects to the login page, whatever it allowed before.
   */
  lemma GuardAfterGetMeLogout(mode: KeyMode, m: Machine, href: string)
    requires Truthy(m.auth.accessToken) && !Truthy(m.auth.refreshToken)
    ensures Guard(Step(mode, m, GetMeFailed).next, href) == Redirect(LoginPath, href)
  {
  }

  /** The guard reads only the user, never the tokens. */
  lemma GuardIgnoresTokens(m: Machine, access: Option<string>, refresh: Option<string>, href: string)
    ensures Guard(m.(auth := m.auth.(accessToken := access, refreshToken := refresh)), href) == Guard(m, href)
  {
  }
}
