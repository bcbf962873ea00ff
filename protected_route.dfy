/** The route guard of the client: what a protected page shows, given the
    authentication state, the role it requires and the current path. */
module ProtectedRoute {
  import opened Common
  import AuthContext

  datatype Decision =
    | Spinner
    | Redirect(to: string, from: Option<string>)
    | Children

  const LoginPath: string := "/login"
  const VendorHome: string := "/vendor/dashboard"
  const StudentHome: string := "/dashboard"

  /** The role of the user, if any. */
  function RoleOf(s: AuthContext.AuthState): Option<string> {
    if s.user.Some? then Some(s.user.value.role) else None
  }

  /** The guard: a spinner while loading; the login page, remembering the path, when not
      signed in; the user's home page when a role is required (a non-empty one) and the
      user does not have it; else the page itself. */
  function Guard(s: AuthContext.AuthState, requiredRole: string, path: string): (d: Decision)
    ensures s.isLoading <==> d == Spinner
    ensures !s.isLoading && !s.isAuthenticated <==> d == Redirect(LoginPath, Some(path))
    ensures d == Children <==> && !s.isLoading && s.isAuthenticated
                               && (|requiredRole| == 0 || RoleOf(s) == Some(requiredRole))
  {
    if s.isLoading then Spinner
    else if !s.isAuthenticated then Redirect(LoginPath, Some(path))
    else if |requiredRole| > 0 && RoleOf(s) != Some(requiredRole) then
      Redirect(if RoleOf(s) == Some("vendor") then VendorHome else StudentHome, None)
    else Children
  }

  /** A role mismatch sends vendors to their dashboard and everyone else, a signed-in
      client without a user included, to the student dashboard. */
  lemma MismatchRedirect(s: AuthContext.AuthState, requiredRole: string, path: string)
    requires !s.isLoading && s.isAuthenticated && |requiredRole| > 0 && RoleOf(s) != Some(requiredRole)
    ensures Guard(s, requiredRole, path) == Redirect(if RoleOf(s) == Some("vendor") then VendorHome else StudentHome, None)
    ensures RoleOf(s) == Some("vendor") ==> Guard(s, requiredRole, path).to == VendorHome
    ensures RoleOf(s) != Some("vendor") ==> Guard(s, requiredRole, path).to == StudentHome
  {
  }

  /** Without a required role, every signed-in client gets the page; with one, exactly
      those whose role matches (the same test as `hasRole`). */
  lemma GuardMatchesHasRole(s: AuthContext.AuthState, requiredRole: string, path: string)
    requires !s.isLoading && s.isAuthenticated
    ensures |requiredRole| == 0 ==> Guard(s, requiredRole, path) == Children
    ensures |requiredRole| > 0 ==> (Guard(s, requiredRole, path) == Children <==> AuthContext.HasRole(s, requiredRole))
  {
  }

  /** For any state the client reaches from start-up, a page that needs a role is shown
      only to a user that has it. */
  lemma ReachableGuardNeedsRole(storedToken: Option<string>, actions: seq<AuthContext.Action>, requiredRole: string,
                                path: string)
    requires |requiredRole| > 0
    ensures var s := AuthContext.Run(AuthContext.InitialState(storedToken), actions);
      Guard(s, requiredRole, path) == Children ==> AuthContext.HasRole(s, requiredRole)
  {
  }
}
