/** The admin portal page: the role guard shared by all portals, the user
    management panel scoped to the signed-in administrator's uid, and the
    error-log section that opens an issue list. */
module AdminPortalPage {
  import opened Outcomes
  import opened UserService
  import opened AuthSession
  import Portals

  /** What the page renders: the spinner until the profile is there, else
      the page whose user management panel gets `managementUid`, whose
      resolved-issues toggle is shown or not, and whose issue list is open
      with the given `showResolved` flag or closed. */
  datatype AdminView =
    | AdminSpinner
    | AdminPage(managementUid: Option<string>, resolvedToggleShown: bool, issuesList: Option<bool>)

  class AdminPortal {
    var showErrorLogs: bool
    var showResolvedIssues: bool

    constructor ()
      ensures !showErrorLogs && !showResolvedIssues
    {
      showErrorLogs, showResolvedIssues := false, false;
    }

    /** The guard effect, as on every portal page, for the Admin role. */
    function Redirect(s: Session): (r: Option<Portals.Route>)
      ensures r == Portals.PortalRedirect(Portals.AdminPortal, s)
      ensures r == Some(Portals.DashboardRoute) ==> s.userProfile.value.role != "Admin"
    {
      Portals.PortalRedirect(Portals.AdminPortal, s)
    }

    function View(s: Session): (v: AdminView)
      reads this
      ensures v.AdminSpinner? <==> s.userProfile.None?
      ensures v.AdminPage? ==> v.managementUid == s.userProfile.value.uid
      ensures v.AdminPage? ==> v.resolvedToggleShown == showErrorLogs
      ensures v.AdminPage? ==> (v.issuesList.Some? <==> showErrorLogs)
      ensures v.AdminPage? && v.issuesList.Some? ==> v.issuesList.value == showResolvedIssues
    {
      if s.userProfile.None? then AdminSpinner
      else AdminPage(s.userProfile.value.uid, showErrorLogs,
                     if showErrorLogs then Some(showResolvedIssues) else None)
    }

    /** The Show/Hide button of the error-log section. */
    method ToggleErrorLogs()
      modifies this
      ensures showErrorLogs == !old(showErrorLogs) && showResolvedIssues == old(showResolvedIssues)
    {
      showErrorLogs := !showErrorLogs;
    }

    /** The "Show All" / "Show Open Only" button. */
    method ToggleResolvedIssues()
      modifies this
      ensures showResolvedIssues == !old(showResolvedIssues) && showErrorLogs == old(showErrorLogs)
    {
      showResolvedIssues := !showResolvedIssues;
    }
  }

  /** Hiding and showing the error logs again reopens the issue list with
      the resolved flag it had. */
  method ToggleTwiceKeepsFilter(s: Session) returns (before: AdminView, after: AdminView)
    requires s.userProfile.Some?
    ensures before == after
    ensures after.AdminPage? && after.issuesList == Some(true)
  {
    var page := new AdminPortal();
    page.ToggleErrorLogs();
    page.ToggleResolvedIssues();
    before := page.View(s);
    page.ToggleErrorLogs();
    page.ToggleErrorLogs();
    after := page.View(s);
  }
}
