/**
 * The route guards: `ProtectedRoute`'s condition for showing its children
 * (or its fallback), and `useRequireRole`'s `hasRequiredRole` and
 * `canAccess`.  A required `user` role admits users and admins; a required
 * `admin` role admits admins only.
 */
module Access {
  import opened Wrappers
  import opened AuthTypes

  datatype RequiredRole = RequireUser | RequireAdmin

  /** The role check alone, shared by both guards. */
  predicate RoleAdmits(required: RequiredRole, role: Option<Role>) {
    match required
    case RequireAdmin => role == Some(Admin)
    case RequireUser => role == Some(User) || role == Some(Admin)
  }

  /** `ProtectedRoute`'s `when`: not while loading, not signed out, and the role check when a role is required. */
  function RouteAllows(auth: AuthState, required: Option<RequiredRole>): (r: bool)
    ensures auth.isLoading ==> !r
    ensures !auth.isAuthenticated ==> !r
    ensures required.None? ==> (r <==> !auth.isLoading && auth.isAuthenticated)
    ensures required == Some(RequireAdmin) ==> (r <==> !auth.isLoading && auth.isAuthenticated && auth.role == Some(Admin))
    ensures required == Some(RequireUser)
      ==> (r <==> !auth.isLoading && auth.isAuthenticated && (auth.role == Some(User) || auth.role == Some(Admin)))
  {
    if auth.isLoading then false
    else if !auth.isAuthenticated then false
    else if required.Some? then RoleAdmits(required.value, auth.role)
    else true
  }

  const AccessDenied := "Access denied"

  /** What `ProtectedRoute` renders: its children, or the fallback. */
  datatype View = Children | Fallback(element: string)

  /** A missing or empty `fallback` falls back to the "Access denied" element. */
  function Guard(auth: AuthState, required: Option<RequiredRole>, fallback: Option<string>): (v: View)
    ensures v == Children <==> RouteAllows(auth, required)
    ensures v != Children && (fallback.None? || fallback.value == "") ==> v == Fallback(AccessDenied)
    ensures v != Children && fallback.Some? && fallback.value != "" ==> v == Fallback(fallback.value)
  {
    if RouteAllows(auth, required) then Children
    else Fallback(if fallback.Some? && fallback.value != "" then fallback.value else AccessDenied)
  }

  /** `hasRequiredRole`: false without an authenticated user, then the role check. */
  function HasRequiredRole(auth: AuthState, required: RequiredRole): (r: bool)
    ensures r ==> auth.isAuthenticated && auth.user.Some?
    ensures required == RequireAdmin ==> (r <==> auth.isAuthenticated && auth.user.Some? && auth.role == Some(Admin))
    ensures required == RequireUser
      ==> (r <==> auth.isAuthenticated && auth.user.Some? && (auth.role == Some(User) || auth.role == Some(Admin)))
  {
    if !auth.isAuthenticated || auth.user.None? then false
    else if required == RequireAdmin then auth.role == Some(Admin)
    else auth.role == Some(User) || auth.role == Some(Admin)
  }

  /** `canAccess`. */
  function CanAccess(auth: AuthState, required: RequiredRole): (r: bool)
    ensures r ==> !auth.isLoading && auth.isAuthenticated && auth.user.Some?
  {
    !auth.isLoading && auth.isAuthenticated && HasRequiredRole(auth, required)
  }

  /** Admin access implies user access implies plain authenticated access, in both guards. */
  lemma AdminImpliesUser(auth: AuthState)
    ensures HasRequiredRole(auth, RequireAdmin) ==> HasRequiredRole(auth, RequireUser)
    ensures CanAccess(auth, RequireAdmin) ==> CanAccess(auth, RequireUser)
    ensures RouteAllows(auth, Some(RequireAdmin)) ==> RouteAllows(auth, Some(RequireUser))
    ensures RouteAllows(auth, Some(RequireUser)) ==> RouteAllows(auth, None)
  {
  }

  /** `canAccess` is the route's condition plus a user being present; with both signed-in flags agreeing, they coincide. */
  lemma CanAccessIsRoute(auth: AuthState, required: RequiredRole)
    ensures CanAccess(auth, required) <==> RouteAllows(auth, Some(required)) && auth.user.Some?
    ensures (auth.isAuthenticated <==> auth.user.Some?) ==> (CanAccess(auth, required) <==> RouteAllows(auth, Some(required)))
  {
  }

  /** Every state the store takes from a snapshot has its flags agreeing, so the two guards agree on it. */
  lemma GuardsAgreeOnSnapshots(s: Snapshot, required: RequiredRole)
    ensures CanAccess(FromSnapshot(s), required) <==> RouteAllows(FromSnapshot(s), Some(required))
  {
    CanAccessIsRoute(FromSnapshot(s), required);
  }

  /** Receptionists, dentists and managers pass no role requirement, only the plain signed-in check. */
  lemma StaffRolesNeedNoRole(auth: AuthState, required: RequiredRole)
    requires auth.role == Some(Receptionist) || auth.role == Some(Dentist) || auth.role == Some(Manager)
    ensures !RouteAllows(auth, Some(required)) && !CanAccess(auth, required)
  {
  }
}
