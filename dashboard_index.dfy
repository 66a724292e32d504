/** The `/dashboard` route: waits for the auth context, sends anonymous visitors to log in,
    and picks the company or the job-seeker dashboard by user type. */
module DashboardIndex {
  import opened Common

  datatype DashboardRoute = Placeholder | RedirectToLogin | CompanyDashboard | PcdDashboard

  function DashboardFor(loading: bool, user: Option<User>, userType: Option<Role>): (r: DashboardRoute)
    ensures loading ==> r == Placeholder
    ensures !loading && user.None? ==> r == RedirectToLogin
    ensures r == CompanyDashboard <==> !loading && user.Some? && userType == Some(Empresa)
    ensures r == PcdDashboard <==> !loading && user.Some? && (userType == None || userType == Some(Pcd))
  {
    if loading then Placeholder
    else if user.None? then RedirectToLogin
    else match userType
      case Some(Empresa) => CompanyDashboard
      case Some(Pcd) => PcdDashboard
      case None => PcdDashboard
  }
}
