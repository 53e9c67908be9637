/** Role-based routing: the dashboard picks a portal from the profile's
    role, and every portal page redirects a signed-out visitor to the login
    page and a visitor of another role back to the dashboard. The parent
    and educator portals are nothing more than that guard, a spinner while
    the profile is missing, and the logout button. */
module Portals {
  import opened Outcomes
  import opened UserService
  import opened AuthSession

  datatype Route = LoginRoute | DashboardRoute | ProfileRoute

  datatype Portal = AdminPortal | ITPortal | EducatorPortal | ParentPortal

  /** The role a portal page admits. */
  function PortalRole(p: Portal): (role: string)
    ensures role in {"Admin", "IT", "Educator", "Parent"}
  {
    match p
    case AdminPortal => "Admin"
    case ITPortal => "IT"
    case EducatorPortal => "Educator"
    case ParentPortal => "Parent"
  }

  /** Different portals admit different roles. */
  lemma PortalRoleInjective(p: Portal, q: Portal)
    requires PortalRole(p) == PortalRole(q)
    ensures p == q
  {
  }

  /** The dashboard's switch on the role; any other role gets the parent
      portal. */
  function Dispatch(role: string): (p: Portal)
    ensures role in {"Admin", "IT", "Educator", "Parent"} ==> PortalRole(p) == role
    ensures role !in {"Admin", "IT", "Educator", "Parent"} ==> p == ParentPortal
  {
    if role == "Admin" then AdminPortal
    else if role == "IT" then ITPortal
    else if role == "Educator" then EducatorPortal
    else ParentPortal
  }

  datatype Screen = Spinner | PortalPage(portal: Portal)

  /** One render of a page: where its effect navigates, and what it shows. */
  datatype Decision = Decision(navigate: Option<Route>, screen: Screen)

  /** The dashboard: once the session check is over, a signed-out visitor
      is sent to login; the spinner shows until the profile is there. */
  function Dashboard(s: Session): (d: Decision)
    ensures d.navigate.Some? <==> !s.loading && s.currentUser.None?
    ensures d.navigate.Some? ==> d.navigate.value == LoginRoute
    ensures d.screen.Spinner? <==> s.loading || s.userProfile.None?
    ensures d.screen.PortalPage? ==> d.screen.portal == Dispatch(s.userProfile.value.role)
  {
    var nav := if !s.loading && s.currentUser.None? then Some(LoginRoute) else None;
    if s.loading || s.userProfile.None? then Decision(nav, Spinner)
    else Decision(nav, PortalPage(Dispatch(s.userProfile.value.role)))
  }

  /** A portal page's guard effect. */
  function PortalRedirect(p: Portal, s: Session): (r: Option<Route>)
    ensures r == Some(LoginRoute) <==> !s.loading && s.currentUser.None?
    ensures r == Some(DashboardRoute) <==>
      !s.loading && s.currentUser.Some? && s.userProfile.Some? && s.userProfile.value.role != PortalRole(p)
    ensures r != Some(ProfileRoute)
  {
    if s.loading then None
    else if s.currentUser.None? then Some(LoginRoute)
    else if s.userProfile.Some? && s.userProfile.value.role != PortalRole(p) then Some(DashboardRoute)
    else None
  }

  /** A portal page shows the spinner until the profile is there. */
  function PortalScreen(p: Portal, s: Session): (sc: Screen)
    ensures sc.Spinner? <==> s.userProfile.None?
    ensures sc.PortalPage? ==> sc.portal == p
  {
    if s.userProfile.None? then Spinner else PortalPage(p)
  }

  /** The parent portal page. */
  function ParentPortalPage(s: Session): (d: Decision)
    ensures d.navigate == PortalRedirect(ParentPortal, s)
    ensures d.screen == PortalScreen(ParentPortal, s)
  {
    Decision(PortalRedirect(ParentPortal, s), PortalScreen(ParentPortal, s))
  }

  /** The educator portal page. */
  function EducatorPortalPage(s: Session): (d: Decision)
    ensures d.navigate == PortalRedirect(EducatorPortal, s)
    ensures d.screen == PortalScreen(EducatorPortal, s)
  {
    Decision(PortalRedirect(EducatorPortal, s), PortalScreen(EducatorPortal, s))
  }

  /** For each of the four roles the dashboard shows the portal that admits
      that role, so the portal's guard keeps the user there. */
  lemma DispatchedPortalAdmits(s: Session)
    requires s.currentUser.Some? && Dashboard(s).screen.PortalPage?
    requires s.userProfile.value.role in {"Admin", "IT", "Educator", "Parent"}
    ensures PortalRedirect(Dashboard(s).screen.portal, s) == None
    ensures PortalScreen(Dashboard(s).screen.portal, s) == Dashboard(s).screen
    ensures Dashboard(s).navigate == None
  {
  }

  /** A role outside the four gets the parent portal, whose guard sends the
      user back to the dashboard they are already on. */
  lemma UnknownRoleBouncesToDashboard(s: Session)
    requires s.currentUser.Some? && Dashboard(s).screen.PortalPage?
    requires s.userProfile.value.role !in {"Admin", "IT", "Educator", "Parent"}
    ensures Dashboard(s).screen.portal == ParentPortal
    ensures ParentPortalPage(s).navigate == Some(DashboardRoute)
  {
  }

  /** A portal's guard agrees with the dashboard: it lets a signed-in user
      stay exactly when the dashboard would have chosen that portal for the
      user's role, or the profile is not there yet. */
  lemma GuardAgreesWithDispatch(p: Portal, s: Session)
    requires !s.loading && s.currentUser.Some?
    ensures PortalRedirect(p, s) == None <==> s.userProfile.None? || s.userProfile.value.role == PortalRole(p)
    ensures PortalRedirect(p, s) == None && s.userProfile.Some? ==> Dispatch(s.userProfile.value.role) == p
  {
    if s.userProfile.Some? && s.userProfile.value.role == PortalRole(p) {
      var role := s.userProfile.value.role;
      assert role in {"Admin", "IT", "Educator", "Parent"};
      PortalRoleInjective(Dispatch(role), p);
    }
  }

  /** A portal's logout button: `attempt` is what the context's `logout`
      did; only a successful logout navigates to the login page. */
  method PortalLogout(auth: AuthProvider, attempt: Outcome<()>) returns (nav: Option<Route>)
    modifies auth
    ensures nav == (if attempt.Done? then Some(LoginRoute) else None)
    ensures auth.userProfile == (if attempt.Done? then None else old(auth.userProfile))
    ensures auth.error == (if attempt.Done? then None else Some(attempt.err.message))
    ensures auth.currentUser == old(auth.currentUser) && auth.loading == old(auth.loading)
  {
    var r := auth.Logout(attempt);
    nav := if r.Done? then Some(LoginRoute) else None;
  }
}
