/** The route guard (src/components/auth/ProtectedRoute.tsx): what a protected
  * route shows for the provider's state. */
module ProtectedRoute {
  import opened Common
  import opened Types
  import AuthContext

  /** The four things the guard can render. */
  datatype View =
    | LoadingView
    | RedirectToLogin(from: string)
    | AccessDenied
    | Protected

  /** The role a route asks for when none is given. */
  const DefaultRequiredRole: string := "user"

  /** The guard's decision for the provider's fields, the route's
    * `requiredRole` and the location being visited. */
  function Guard(isLoading: bool, user: Option<TelegramUser>, isAdmin: bool, userRole: Option<string>,
                 requiredRole: string, location: string): (v: View)
    ensures isLoading ==> v == LoadingView
    ensures !isLoading && user.None? ==> v == RedirectToLogin(location)
    ensures !isLoading && user.Some? && isAdmin ==> v == Protected
    ensures !isLoading && user.Some? && !isAdmin ==>
      (v == AccessDenied <==> requiredRole != "" && userRole != Some(requiredRole))
    ensures v == Protected || v == AccessDenied ==> !isLoading && user.Some?
  {
    if isLoading then LoadingView
    else if user.None? then RedirectToLogin(location)
    else if isAdmin then Protected
    else if requiredRole != "" && userRole != Some(requiredRole) then AccessDenied
    else Protected
  }

  /** The guard over a provider's state, whose `isAdmin` is derived from its role. */
  function GuardFor(p: AuthContext.AuthProvider, requiredRole: string, location: string): (v: View)
    reads p
    ensures v == Guard(p.isLoading, p.user, AuthContext.IsAdmin(p.userRole), p.userRole, requiredRole, location)
  {
    Guard(p.isLoading, p.user, AuthContext.IsAdmin(p.userRole), p.userRole, requiredRole, location)
  }

  /** Once loaded, a signed-in user is let through a route exactly when they
    * are an admin or hold the role the route asks for; a merchant is turned
    * away from a route for plain users. */
  lemma SignedInAccess(user: TelegramUser, userRole: Option<string>, requiredRole: string, location: string)
    requires requiredRole != ""
    ensures var v := Guard(false, Some(user), AuthContext.IsAdmin(userRole), userRole, requiredRole, location);
      v == Protected <==> userRole == Some("admin") || userRole == Some(requiredRole)
    ensures Guard(false, Some(user), false, Some("merchant"), DefaultRequiredRole, location) == AccessDenied
  {
  }

  /** A provider that has finished loading and is signed in never shows the
    * login redirect; one that signed out always does. */
  lemma SignedOutRedirects(p: AuthContext.AuthProvider, requiredRole: string, location: string)
    requires p.Valid() && !p.isLoading
    ensures p.user.None? <==> GuardFor(p, requiredRole, location) == RedirectToLogin(location)
    ensures p.user.Some? ==> p.userRole.Some?
  {
  }
}
