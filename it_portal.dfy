/** The IT portal page: the role guard, which also loads the issues once an
    IT profile is there and runs again whenever the open/all filter
    changes; the poll interval; resolving issues; and the counters. Each
    awaited API call is a parameter holding its outcome. */
module ITPortalPage {
  import opened Outcomes
  import opened AuthSession
  import opened Issues
  import Portals

  /** What the guard effect does on one run. */
  datatype GuardEffect = Redirect(route: Portals.Route) | LoadAll | NoEffect

  /** The guard effect: the portal redirect, and otherwise a load once the
      profile is there. */
  function Guard(s: Session): (g: GuardEffect)
    ensures g.Redirect? <==> Portals.PortalRedirect(Portals.ITPortal, s).Some?
    ensures g.Redirect? ==> g.route == Portals.PortalRedirect(Portals.ITPortal, s).value
    ensures g == LoadAll <==>
      !s.loading && s.currentUser.Some? && s.userProfile.Some? && s.userProfile.value.role == "IT"
  {
    match Portals.PortalRedirect(Portals.ITPortal, s)
    case Some(r) => Redirect(r)
    case None => if !s.loading && s.userProfile.Some? then LoadAll else NoEffect
  }

  /** What the issue panel shows below the header. */
  datatype PanelView = PageSpinner | Panel(listSpinner: bool, errorBox: Option<string>, shown: seq<Issue>)

  class ITPortal {
    var issues: seq<Issue>
    var loading: bool
    var resolving: map<string, bool>
    var showResolved: bool
    var error: string
    var syncing: bool
    var mounted: bool

    constructor ()
      ensures issues == [] && loading && resolving == map[] && !showResolved
      ensures error == "" && !syncing && mounted
    {
      issues, loading, resolving, showResolved := [], true, map[], false;
      error, syncing, mounted := "", false, true;
    }

    /** `loadIssues()`: `fetched` is what `getIssues(showResolved)` did. */
    method LoadIssues(fetched: Outcome<IssuesData>) returns (requested: bool)
      modifies this
      ensures requested == showResolved && !loading
      ensures fetched.Done? ==> issues == Listed(fetched.value) && error == ""
      ensures fetched.Threw? ==>
        issues == old(issues) && error == LoadFailurePrefix + fetched.err.message
      ensures showResolved == old(showResolved) && resolving == old(resolving)
      ensures syncing == old(syncing) && mounted == old(mounted)
    {
      loading := true;
      error := "";
      requested := showResolved;
      if fetched.Done? {
        issues := Listed(fetched.value);
      } else {
        error := LoadFailurePrefix + fetched.err.message;
      }
      loading := false;
    }

    /** One run of the guard effect against the session `s`; `fetched` is
        used only when the effect loads. */
    method RunGuard(s: Session, fetched: Outcome<IssuesData>) returns (g: GuardEffect)
      modifies this
      ensures g == Guard(s) && mounted
      ensures g == LoadAll ==> !loading
      ensures g == LoadAll && fetched.Done? ==> issues == Listed(fetched.value) && error == ""
      ensures g == LoadAll && fetched.Threw? ==>
        issues == old(issues) && error == LoadFailurePrefix + fetched.err.message
      ensures g != LoadAll ==> issues == old(issues) && loading == old(loading) && error == old(error)
      ensures showResolved == old(showResolved) && resolving == old(resolving) && syncing == old(syncing)
    {
      mounted := true;
      g := Guard(s);
      if g == LoadAll {
        var _ := LoadIssues(fetched);
      }
    }

    /** The "Show All" / "Show Open Only" button: the filter flips, and the
        guard effect's cleanup and the effect run again. */
    method ToggleShowResolved(s: Session, fetched: Outcome<IssuesData>) returns (g: GuardEffect, requested: Option<bool>)
      modifies this
      ensures showResolved == !old(showResolved) && g == Guard(s) && mounted
      ensures requested == (if g == LoadAll then Some(showResolved) else None)
      ensures g == LoadAll ==> !loading
      ensures g == LoadAll && fetched.Done? ==> issues == Listed(fetched.value) && error == ""
      ensures g == LoadAll && fetched.Threw? ==>
        issues == old(issues) && error == LoadFailurePrefix + fetched.err.message
      ensures g != LoadAll ==> issues == old(issues) && loading == old(loading) && error == old(error)
      ensures resolving == old(resolving) && syncing == old(syncing)
    {
      showResolved := !showResolved;
      mounted := false;
      g := RunGuard(s, fetched);
      requested := if g == LoadAll then Some(showResolved) else None;
    }

    /** The guard effect's cleanup, on unmount. */
    method Unmount()
      modifies this
      ensures !mounted
      ensures issues == old(issues) && loading == old(loading) && syncing == old(syncing)
      ensures showResolved == old(showResolved) && resolving == old(resolving) && error == old(error)
    {
      mounted := false;
    }

    /** One tick of the poll interval, which exists only once loading is
        over and the profile is there; a failed poll is silent. */
    method PollTick(profileShown: bool, fetched: Outcome<IssuesData>, unmountedMeanwhile: bool)
      returns (polled: bool)
      modifies this
      ensures polled == (!old(loading) && profileShown && old(mounted))
      ensures !polled ==> syncing == old(syncing) && mounted == old(mounted)
      ensures polled ==> mounted == !unmountedMeanwhile && syncing == unmountedMeanwhile
      ensures issues == (if polled && !unmountedMeanwhile && fetched.Done?
                         then Listed(fetched.value) else old(issues))
      ensures error == old(error) && loading == old(loading)
      ensures resolving == old(resolving) && showResolved == old(showResolved)
    {
      polled := !loading && profileShown && mounted;
      if polled {
        syncing := true;
        if unmountedMeanwhile {
          mounted := false;
        }
        if mounted && fetched.Done? {
          issues := Listed(fetched.value);
        }
        if mounted {
          syncing := false;
        }
      }
    }

    /** `handleResolve(id)`: `result` is what `resolveIssue(id)` did. */
    method HandleResolve(id: string, result: Outcome<()>) returns (ghost whileWaiting: map<string, bool>)
      modifies this
      ensures whileWaiting == old(resolving)[id := true]
      ensures resolving == old(resolving)[id := false]
      ensures result.Done? ==> issues == WithoutId(old(issues), id) && error == old(error)
      ensures result.Threw? ==>
        issues == old(issues) && error == ResolveFailurePrefix + result.err.message
      ensures loading == old(loading) && syncing == old(syncing) && mounted == old(mounted)
      ensures showResolved == old(showResolved)
    {
      var before := resolving;
      resolving := before[id := true];
      whileWaiting := resolving;
      if result.Done? {
        issues := WithoutId(issues, id);
      } else {
        error := ResolveFailurePrefix + result.err.message;
      }
      resolving := before[id := false];
    }

    /** The three counters: open, resolved, total. */
    function Counters(): (c: (nat, nat, nat))
      reads this
      ensures c.0 + c.1 == c.2 && c.2 == |issues|
      ensures c.0 == OpenCount(issues) && c.1 == ResolvedCount(issues)
    {
      CountsAddUp(issues);
      (OpenCount(issues), ResolvedCount(issues), |issues|)
    }

    /** The page below the header: the page spinner until the profile is
        there; else the error box above the list, which is replaced by a
        spinner while loading. */
    function View(s: Session): (v: PanelView)
      reads this
      ensures v.PageSpinner? <==> s.userProfile.None?
      ensures v.Panel? ==> v.listSpinner == loading && v.shown == issues
      ensures v.Panel? ==> (v.errorBox.Some? <==> error != "")
    {
      if s.userProfile.None? then PageSpinner
      else Panel(loading, if error != "" then Some(error) else None, issues)
    }
  }

  /** The page's logout button. */
  method HandleLogout(auth: AuthProvider, attempt: Outcome<()>) returns (nav: Option<Portals.Route>)
    modifies auth
    ensures nav == (if attempt.Done? then Some(Portals.LoginRoute) else None)
    ensures auth.userProfile == (if attempt.Done? then None else old(auth.userProfile))
    ensures auth.error == (if attempt.Done? then None else Some(attempt.err.message))
    ensures auth.currentUser == old(auth.currentUser) && auth.loading == old(auth.loading)
  {
    nav := Portals.PortalLogout(auth, attempt);
  }

  /** An IT user's first visit loads the open issues; after one of them is
      resolved the list holds the others, all counted as open, and none as
      resolved. */
  method FirstVisitThenResolve(s: Session, open: seq<Issue>, id: string)
    returns (counters: (nat, nat, nat), listed: seq<Issue>)
    requires !s.loading && s.currentUser.Some? && s.userProfile.Some? && s.userProfile.value.role == "IT"
    requires forall i :: 0 <= i < |open| ==> !open[i].resolved
    ensures listed == WithoutId(open, id)
    ensures counters == (|listed|, 0, |listed|)
  {
    var page := new ITPortal();
    var _ := page.RunGuard(s, Done(IssuesData(Some(open))));
    ghost var _ := page.HandleResolve(id, Done(()));
    listed := page.issues;
    forall i | 0 <= i < |listed| ensures !listed[i].resolved {
      assert listed[i] in listed;
    }
    OpenOnlyCounts(listed);
    counters := page.Counters();
  }
}
