/** `ProtectedRoute`: what a guarded route shows for a session and a list of required roles. */
module Routes {
  import opened Wrappers
  import opened Text
  import opened Accounts
  import opened Auth

  datatype Decision = ShowLoading | RedirectToLogin | RedirectHome | RenderOutlet

  /**
   * The chain of early returns of the guard; `requiredRoles` defaults to the
   * empty list. Each decision is taken exactly under its own condition.
   */
  function Guard(loading: bool, user: Option<User>, requiredRoles: seq<String>): (d: Decision)
    ensures d == ShowLoading <==> loading
    ensures d == RedirectToLogin <==> !loading && user.None?
    ensures d == RedirectHome <==>
      !loading && user.Some? && requiredRoles != [] && user.value.role !in requiredRoles
    ensures d == RenderOutlet <==>
      !loading && user.Some? && (requiredRoles == [] || user.value.role in requiredRoles)
  {
    if loading then ShowLoading
    else if user.None? then RedirectToLogin
    else if |requiredRoles| > 0 && !HasPermission(user, requiredRoles) then RedirectHome
    else RenderOutlet
  }

  /** The outlet is rendered only for a session the role check lets through, or a route open to every user. */
  lemma OutletOnlyWhenPermitted(loading: bool, user: Option<User>, requiredRoles: seq<String>)
    requires Guard(loading, user, requiredRoles) == RenderOutlet
    ensures user.Some?
    ensures requiredRoles == [] || HasPermission(user, requiredRoles)
  {
  }
}
