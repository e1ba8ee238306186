/**
 * The single-address access gate shared by the sign-in page, the denial
 * page and the dashboard: a session, the one allowed email, the pages and
 * the routing decisions a page can take.
 */
module Auth {
  import opened Base

  /** The only email address admitted to the dashboard. */
  const AllowedEmail: string := "behzodmusurmonqulov@gmail.com"

  /** A signed-in session; the identity provider may leave the email out. */
  datatype Session = Session(email: Option<string>)

  datatype Page = SignInPage | SorryPage | DashboardPage

  /** What a page's session check does: stay, or replace the location. */
  datatype Route = Stay | Redirect(to: Page)

  /** `session?.user?.email === ALLOWED_EMAIL`. */
  predicate IsAllowed(session: Option<Session>)
    ensures IsAllowed(session) ==> session.Some? && session.value.email.Some? && session.value.email.value != ""
  {
    session.Some? && session.value.email == Some(AllowedEmail)
  }
}
