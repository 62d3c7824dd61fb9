/** The request middleware: a signed-in user who opens the login or registration
    page is sent to the dashboard; every other request passes through. */
module Middleware {
  import opened Common

  datatype Decision = Redirect(location: string) | Next

  /** The paths a signed-in user is sent away from. */
  const AuthRoutes: seq<string> := ["/auth/login", "/auth/register"]

  /** Where they are sent. */
  const DashboardPath: string := "/dashboard"

  /** `!!token`: the `auth-token` cookie is present and not empty. */
  predicate IsAuthenticated(authToken: Option<string>)
  {
    Truthy(authToken)
  }

  /** `routes.some(route => pathname.startsWith(route))`. */
  function StartsWithAny(pathname: string, routes: seq<string>): (b: bool)
    ensures b <==> exists i :: 0 <= i < |routes| && StartsWith(pathname, routes[i])
    decreases |routes|
  {
    if routes == [] then false
    else StartsWith(pathname, routes[0]) || StartsWithAny(pathname, routes[1..])
  }

  /** The middleware's decision for a path and the `auth-token` cookie. */
  function Decide(pathname: string, authToken: Option<string>): (d: Decision)
    ensures d.Redirect? <==>
      IsAuthenticated(authToken) && (StartsWith(pathname, "/auth/login") || StartsWith(pathname, "/auth/register"))
    ensures d.Redirect? ==> d.location == DashboardPath
    ensures !IsAuthenticated(authToken) ==> d == Next
  {
    assert AuthRoutes[0] == "/auth/login" && AuthRoutes[1] == "/auth/register";
    if IsAuthenticated(authToken) && StartsWithAny(pathname, AuthRoutes) then Redirect(DashboardPath)
    else Next
  }

  /** The match is by prefix: a path below the login page redirects too. */
  lemma BelowLoginRedirects(token: string)
    requires token != ""
    ensures Decide("/auth/login/x", Some(token)) == Redirect("/dashboard")
  {
    assert StartsWith("/auth/login/x", "/auth/login");
  }

  /** Dashboard paths are not protected: without a token they pass through. */
  lemma DashboardOpenWithoutToken(rest: string)
    ensures Decide(DashboardPath + rest, None) == Next
    ensures Decide(DashboardPath + rest, Some("")) == Next
  {
  }
}
