/**
 * The three pages' session checks taken together: where a visitor ends up,
 * that no two checks send a visitor back and forth, and what the denial
 * page's buttons lead to.
 */
module AccessGate {
  import opened Base
  import opened Auth
  import AdminDashboard
  import SignIn
  import Sorry

  /** The session check of each page. */
  function RouteOf(page: Page, s: Option<Session>): Route {
    match page
    case SignInPage => SignIn.SignInRoute(s)
    case SorryPage => Sorry.SorryRoute(s)
    case DashboardPage => AdminDashboard.DashboardRoute(s)
  }

  /** The page a visitor is on after the page's own check has run. */
  function Landing(page: Page, s: Option<Session>): Page {
    match RouteOf(page, s)
    case Stay => page
    case Redirect(to) => to
  }

  /** Every redirect lands on a page whose own check keeps the visitor there. */
  lemma NoRedirectLoops(page: Page, s: Option<Session>)
    ensures RouteOf(Landing(page, s), s) == Stay
  {
  }

  /** Only the allowed email reaches the dashboard, and it reaches it from every page. */
  lemma DashboardOnlyForAllowed(page: Page, s: Option<Session>)
    ensures Landing(page, s) == DashboardPage <==> IsAllowed(s)
  {
  }

  /** Without a session every page ends on sign-in. */
  lemma SignedOutEndsOnSignIn(page: Page)
    ensures Landing(page, None) == SignInPage
  {
  }

  /** A signed-in user with another non-empty email ends on the denial page from every page. */
  lemma OtherEmailEndsOnSorry(page: Page, s: Option<Session>)
    requires SignIn.HasOtherEmail(s)
    ensures Landing(page, s) == SorryPage
  {
  }

  /** Where a button's outcome leaves the visitor once the target page's check has run. */
  function After(o: Sorry.Outcome): Page {
    match o.route
    case Stay => SorryPage
    case Redirect(to) => Landing(to, o.session)
  }

  /**
   * "Switch account" as written: for a visitor the denial page is meant
   * for, the sign-in page sends the kept session straight back, so the
   * sign-in button is never offered.
   */
  lemma SwitchAccountBounces(s: Option<Session>)
    requires SignIn.HasOtherEmail(s)
    ensures After(Sorry.SwitchAccount(s)) == SorryPage
    ensures SignIn.SignInRoute(Sorry.SwitchAccount(s).session) == Redirect(SorryPage)
  {
  }

  /** A concrete visitor for whom "Switch account" comes back to the denial page. */
  lemma SwitchAccountBouncesExample()
    ensures After(Sorry.SwitchAccount(Some(Session(Some("someone@example.com"))))) == SorryPage
  {
    SwitchAccountBounces(Some(Session(Some("someone@example.com"))));
  }

  /**
   * The intended "Switch account", which signs out first (the page's own
   * sign-out handler): every visitor of the denial page ends on sign-in with
   * no session, where the check stays and the sign-in button is offered.
   */
  lemma SwitchAccountCorrected(s: Option<Session>)
    ensures After(Sorry.SignOut(s)) == SignInPage
    ensures Sorry.SignOut(s).session == None
    ensures SignIn.SignInRoute(Sorry.SignOut(s).session) == Stay
  {
  }
}
