/**
 * The sign-in page: its session check, which sends the allowed user to the
 * dashboard and any other signed-in user to the denial page, and the
 * Google sign-in button.
 */
module SignIn {
  import opened Base
  import opened Auth

  /** `data.session?.user?.email`. */
  function SessionEmail(s: Option<Session>): Option<string> {
    if s.Some? then s.value.email else None
  }

  /** A session whose email is present and non-empty (truthy) but not the allowed one. */
  predicate HasOtherEmail(s: Option<Session>) {
    SessionEmail(s).Some? && SessionEmail(s).value != "" && SessionEmail(s).value != AllowedEmail
  }

  /**
   * `checkSession`: the allowed email goes to the dashboard, any other
   * non-empty email to the denial page; no session, or one without an
   * email, stays here.
   */
  function SignInRoute(s: Option<Session>): (r: Route)
    ensures r == Redirect(DashboardPage) <==> IsAllowed(s)
    ensures r == Redirect(SorryPage) <==> HasOtherEmail(s)
    ensures r == Stay <==> !IsAllowed(s) && !HasOtherEmail(s)
    ensures r != Redirect(SignInPage)
  {
    var email := SessionEmail(s);
    if email == Some(AllowedEmail) then Redirect(DashboardPage)
    else if email.Some? && email.value != "" then Redirect(SorryPage)
    else Stay
  }

  /** The page's state: whether the session check is still running, and the last sign-in error. */
  class Screen {
    var checking: bool
    var error: Option<string>

    constructor ()
      ensures checking && error == None
    {
      checking := true;
      error := None;
    }

    /** The button replaces the "Checking session..." line once the check has settled here. */
    predicate ShowsSignInButton()
      reads this
    {
      !checking
    }

    /** The error line: shown only for a non-empty message, and then with that message. */
    function ErrorLine(): (line: Option<string>)
      reads this
      ensures line.Some? <==> error.Some? && error.value != ""
      ensures line.Some? ==> line.value == error.value
    {
      if error.Some? && error.value != "" then error else None
    }

    /** The session check: when the page stays, the check ends and the button appears. */
    method CheckSession(s: Option<Session>) returns (route: Route)
      modifies this
      ensures route == SignInRoute(s)
      ensures checking == (old(checking) && route != Stay)
      ensures route == Stay ==> ShowsSignInButton()
      ensures error == old(error)
    {
      route := SignInRoute(s);
      if route == Stay {
        checking := false;
      }
    }

    /**
     * `handleSignIn`: clears the error, then records the provider's
     * message when starting the OAuth flow fails. The redirect to Google
     * on success is left out.
     */
    method StartSignIn(oauth: Fault)
      modifies this
      ensures error == if oauth.Fails? then Some(oauth.message) else None
      ensures checking == old(checking)
    {
      error := None;
      if oauth.Fails? {
        error := Some(oauth.message);
      }
    }
  }
}
