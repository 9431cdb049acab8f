/** client/src/components/auth/ProtectedRoute.tsx: what a guarded page
    renders, decided in a fixed order: loading, then authentication, then
    role. */
module ProtectedRoute {
  import opened Common
  import Auth

  /** The `requiredRole` prop: "admin" or "manager", or not given. */
  datatype RequiredRole = AdminRole | ManagerRole {
    function Name(): string {
      match this
      case AdminRole => "admin"
      case ManagerRole => "manager"
    }
  }

  datatype View = Spinner | Redirect(to: string) | Children

  const LoginPath: string := "/login"
  const UnauthorizedPath: string := "/unauthorized"

  /** The rendered outcome for the auth context's `loading`,
      `isAuthenticated` and `user` (possibly null). */
  function Decide(loading: bool, isAuthenticated: bool, user: Option<Auth.User>, requiredRole: Option<RequiredRole>): (v: View)
    ensures v != Spinner ==> !loading
    ensures v == Children ==> isAuthenticated && (requiredRole.None? || user.Some?)
    ensures v.Redirect? ==> v.to in {LoginPath, UnauthorizedPath}
  {
    if loading then Spinner
    else if !isAuthenticated then Redirect(LoginPath)
    else if requiredRole.Some? && RoleOf(user) != Some(requiredRole.value.Name()) && RoleOf(user) != Some("admin")
    then Redirect(UnauthorizedPath)
    else Children
  }

  /** `user?.role` */
  function RoleOf(user: Option<Auth.User>): Option<string> {
    if user.Some? then Some(user.value.role) else None
  }

  /** The outcome, case by case: a spinner whenever loading; otherwise the
      login page when unauthenticated; otherwise the unauthorized page when a
      role is required that the user neither has nor overrides as admin;
      otherwise the page itself. */
  lemma DecideCases(loading: bool, isAuthenticated: bool, user: Option<Auth.User>, requiredRole: Option<RequiredRole>)
    ensures var v := Decide(loading, isAuthenticated, user, requiredRole);
            && (v == Spinner <==> loading)
            && (v == Redirect(LoginPath) <==> !loading && !isAuthenticated)
            && (v == Redirect(UnauthorizedPath) <==>
                  !loading && isAuthenticated && requiredRole.Some? &&
                  (user.None? || (user.value.role != requiredRole.value.Name() && user.value.role != "admin")))
            && (v == Children <==>
                  !loading && isAuthenticated &&
                  (requiredRole.None? || (user.Some? && user.value.role in [requiredRole.value.Name(), "admin"])))
  {
  }

  /** An authenticated admin passes every role requirement, and without a
      requirement every authenticated user gets the page. */
  lemma AdminAndUnrestrictedPass(user: Auth.User, requiredRole: Option<RequiredRole>, anyone: Option<Auth.User>)
    requires user.role == "admin"
    ensures Decide(false, true, Some(user), requiredRole) == Children
    ensures Decide(false, true, anyone, None) == Children
  {
  }

  /** The client guard with a required role admits an authenticated user
      exactly when the server's `allowedTo(role, "admin")` would. */
  lemma AgreesWithAllowedTo(user: Auth.User, requiredRole: RequiredRole)
    ensures Decide(false, true, Some(user), Some(requiredRole)) == Children
            <==> Auth.AllowedTo([requiredRole.Name(), "admin"], Some(user)) == Auth.Next
  {
  }
}
