/** The route guard, frontend/src/components/ProtectedRoutes.tsx: a
    placeholder while the session is being checked, a redirect to the sign-in
    page for signed-out visitors anywhere but the home page, and the
    protected content otherwise. */
module ProtectedRoutes {

  /** The router's current location; only `pathname` is inspected. */
  datatype Location = Location(pathname: string, search: string, hash: string)

  /** What the guard renders: the "Loading..." placeholder, a `Navigate`
      element (its target, the `from` location in its state and its
      `replace` flag), or the children. */
  datatype RouteOutcome =
    | LoadingPlaceholder
    | RedirectTo(to: string, fromLocation: Location, replace: bool)
    | RenderChildren

  const AuthPath := "/auth"
  const HomePath := "/"

  function ProtectedRoute(isLoading: bool, isAuthenticated: bool, location: Location): (r: RouteOutcome)
    ensures r.LoadingPlaceholder? <==> isLoading
    ensures r.RedirectTo? <==> !isLoading && !isAuthenticated && location.pathname != HomePath
    ensures r.RedirectTo? ==> r.to == AuthPath && r.fromLocation == location && r.replace
  {
    if isLoading then LoadingPlaceholder
    else if !isAuthenticated && location.pathname != HomePath then RedirectTo(AuthPath, location, true)
    else RenderChildren
  }

  /** The content is shown exactly to a signed-in visitor, or to anyone on
      the home page, once loading is over. */
  lemma ChildrenIff(isLoading: bool, isAuthenticated: bool, location: Location)
    ensures ProtectedRoute(isLoading, isAuthenticated, location) == RenderChildren <==>
      !isLoading && (isAuthenticated || location.pathname == HomePath)
  {
  }

  /** Signing in never makes the guard more restrictive: wherever a
      signed-out visitor sees the content, a signed-in one does too. */
  lemma AuthenticationOnlyOpens(isLoading: bool, location: Location)
    ensures ProtectedRoute(isLoading, false, location) == RenderChildren ==>
      ProtectedRoute(isLoading, true, location) == RenderChildren
    ensures ProtectedRoute(isLoading, true, location) != RedirectTo(AuthPath, location, true)
  {
  }

  /** The redirect keeps the whole location it came from, so two different
      locations give two different redirects. */
  lemma RedirectRemembersOrigin(a: Location, b: Location)
    requires a.pathname != HomePath && b.pathname != HomePath
    ensures ProtectedRoute(false, false, a) == ProtectedRoute(false, false, b) <==> a == b
  {
  }
}
