/**
 * The denial page shown to a signed-in user other than the allowed one: its
 * session check and its two buttons, "Sign out" and "Switch account".
 */
module Sorry {
  import opened Base
  import opened Auth

  /**
   * The page's session check: no session goes to sign-in, the allowed
   * email to the dashboard; every other session stays.
   */
  function SorryRoute(s: Option<Session>): (r: Route)
    ensures r == Redirect(SignInPage) <==> s.None?
    ensures r == Redirect(DashboardPage) <==> IsAllowed(s)
    ensures r == Stay <==> s.Some? && !IsAllowed(s)
    ensures r != Redirect(SorryPage)
  {
    if s.None? then Redirect(SignInPage)
    else if s.value.email == Some(AllowedEmail) then Redirect(DashboardPage)
    else Stay
  }

  /** What a button leaves behind: the session and where the page goes. */
  datatype Outcome = Outcome(session: Option<Session>, route: Route)

  /** `handleSignOut`: signs out, then goes to sign-in. A failing provider call is left out. */
  function SignOut(s: Option<Session>): (o: Outcome)
    ensures o.session == None
    ensures o.route == Redirect(SignInPage)
  {
    Outcome(None, Redirect(SignInPage))
  }

  /** "Switch account" as written: goes to sign-in and keeps the session. */
  function SwitchAccount(s: Option<Session>): (o: Outcome)
    ensures o.session == s
    ensures o.route == Redirect(SignInPage)
  {
    Outcome(s, Redirect(SignInPage))
  }
}
