/** The authentication middleware's decision: a request without a session
    is sent to the login page, a request with a session is sent away from
    it, and every other request passes through.

    The session lookup is the parameter `hasSession`; the cookie adapters
    and the route matcher are not part of this model. */
module Middleware {
  import opened Common

  const LoginPath: string := "/login"

  const HomePath: string := "/"

  /** The parts of `request.nextUrl` a redirect keeps or changes. */
  datatype Url = Url(origin: string, pathname: string, search: string)

  datatype Decision = PassThrough | Redirect(target: Url)

  /** `pathname.startsWith('/login')` */
  predicate OnLoginPage(url: Url)
  {
    StartsWith(url.pathname, LoginPath)
  }

  /** `middleware`: the decision for a request. */
  function Decide(hasSession: bool, url: Url): (d: Decision)
    // without a session, any page but the login page goes to the login page
    ensures !hasSession && !OnLoginPage(url) <==> d == Redirect(url.(pathname := LoginPath))
    // with a session, the login page goes to the home page
    ensures hasSession && OnLoginPage(url) <==> d == Redirect(url.(pathname := HomePath))
    // every other request passes through
    ensures d.PassThrough? <==> (hasSession <==> !OnLoginPage(url))
    // a redirect keeps the origin and the query and changes only the path
    ensures d.Redirect? ==> d.target.origin == url.origin && d.target.search == url.search
  {
    if !hasSession && !OnLoginPage(url) then Redirect(url.(pathname := LoginPath))
    else if hasSession && OnLoginPage(url) then Redirect(url.(pathname := HomePath))
    else PassThrough
  }

  /** Following a redirect with the same session state passes through: the
      middleware never redirects in a loop. */
  lemma NoRedirectLoop(hasSession: bool, url: Url)
    requires Decide(hasSession, url).Redirect?
    ensures Decide(hasSession, Decide(hasSession, url).target) == PassThrough
  {
    var target := Decide(hasSession, url).target;
    if hasSession {
      assert target.pathname == HomePath;
      assert !StartsWith(HomePath, LoginPath);
    } else {
      assert target.pathname == LoginPath;
      assert StartsWith(LoginPath, LoginPath);
    }
  }

  /** Any path that begins with "/login" counts as the login page: it is
      open without a session and closed with one. */
  lemma LoginVariantsAreLogin(url: Url, suffix: string)
    requires url.pathname == LoginPath + suffix
    ensures Decide(false, url) == PassThrough
    ensures Decide(true, url) == Redirect(url.(pathname := HomePath))
  {
    assert url.pathname[..|LoginPath|] == LoginPath;
  }
}
