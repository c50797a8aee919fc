/** The route guard in front of the dashboards and the profile page. */
module PrivateRoute {
  import opened Wrappers
  import opened Records

  /** What the guard renders: the spinner, a redirect to a path, or the guarded page. */
  datatype Decision = Spinner | Redirect(to: string) | Children

  const LoginPath: string := "/login"
  const InfluencerDashboardPath: string := "/dashboard/influencer"
  const BrandDashboardPath: string := "/dashboard/brand"

  /** The dashboard a user with that role is sent to. */
  function HomeOf(userRole: string): (path: string)
    ensures path == InfluencerDashboardPath || path == BrandDashboardPath
  {
    if userRole == RoleName(Influencer) then InfluencerDashboardPath else BrandDashboardPath
  }

  /**
   * `userRole` is the signed-in user's `role` (`None` when nobody is signed
   * in); `requiredRole` is the route's requirement, if any.
   */
  function Decide(loading: bool, userRole: Option<string>, requiredRole: Option<Role>): (d: Decision)
    ensures loading <==> d == Spinner
    ensures !loading && userRole.None? ==> d == Redirect(LoginPath)
    ensures d == Children <==>
      !loading && userRole.Some? && (requiredRole.None? || userRole.value == RoleName(requiredRole.value))
    ensures d.Redirect? && userRole.Some? ==> d.to == HomeOf(userRole.value)
    ensures d.Redirect? ==> d.to in {LoginPath, InfluencerDashboardPath, BrandDashboardPath}
  {
    if loading then Spinner
    else if userRole.None? then Redirect(LoginPath)
    else if requiredRole.Some? && userRole.value != RoleName(requiredRole.value) then
      if userRole.value == "influencer" then Redirect(InfluencerDashboardPath) else Redirect(BrandDashboardPath)
    else Children
  }

  /** The role each dashboard path requires. */
  function RequiredAt(path: string): Option<Role> {
    if path == InfluencerDashboardPath then Some(Influencer)
    else if path == BrandDashboardPath then Some(Brand)
    else None
  }

  /**
   * A signed-in user with either stored role who is turned away from one
   * dashboard is sent to the other, whose guard lets them in: a role redirect
   * is followed by at most one more render.
   */
  lemma RoleRedirectSettles(role: Role, required: Role)
    requires Decide(false, Some(RoleName(role)), Some(required)).Redirect?
    ensures var to := Decide(false, Some(RoleName(role)), Some(required)).to;
      to != LoginPath && Decide(false, Some(RoleName(role)), RequiredAt(to)) == Children
  {
    assert RoleName(Influencer) != RoleName(Brand);
  }
}
