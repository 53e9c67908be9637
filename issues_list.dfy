/** The issue list an administrator opens on the admin portal: it loads the
    issues when mounted and whenever `showResolved` changes, re-fetches them
    on every poll tick once loading is over, and lets an issue be marked
    resolved. Each awaited API call is a parameter holding its outcome; a
    poll tick whose request is still outstanding when the component
    unmounts is a tick with `unmountedMeanwhile`. */
module IssuesListComponent {
  import opened Outcomes
  import opened Issues

  datatype ListView = LoadingSpinner | ErrorBox(message: string) | Entries(shown: seq<Issue>, syncBanner: bool)

  class IssuesList {
    var showResolved: bool
    var issues: seq<Issue>
    var loading: bool
    var resolving: map<string, bool>
    var error: string
    var syncing: bool
    var mounted: bool

    /** The initial state: nothing loaded yet, loading under way. */
    constructor (showResolved: bool)
      ensures this.showResolved == showResolved
      ensures issues == [] && loading && resolving == map[] && error == "" && !syncing && mounted
    {
      this.showResolved := showResolved;
      issues, loading, resolving, error, syncing, mounted := [], true, map[], "", false, true;
    }

    /** `loadIssues()`: `fetched` is what `getIssues(showResolved)` did,
        `requested` the flag it was asked with. */
    method LoadIssues(fetched: Outcome<IssuesData>) returns (requested: bool)
      modifies this
      ensures requested == showResolved && !loading
      ensures fetched.Done? ==> issues == Listed(fetched.value) && error == ""
      ensures fetched.Threw? ==>
        issues == old(issues) && error == LoadFailurePrefix + fetched.err.message
      ensures showResolved == old(showResolved) && resolving == old(resolving)
      ensures syncing == old(syncing) && mounted == old(mounted)
    {
      loading := true;
      error := "";
      requested := showResolved;
      if fetched.Done? {
        issues := Listed(fetched.value);
      } else {
        error := LoadFailurePrefix + fetched.err.message;
      }
      loading := false;
    }

    /** The mount effect, which also runs after every change of
        `showResolved`: mark mounted and load. */
    method Mount(fetched: Outcome<IssuesData>) returns (requested: bool)
      modifies this
      ensures mounted && requested == showResolved && !loading
      ensures fetched.Done? ==> issues == Listed(fetched.value) && error == ""
      ensures fetched.Threw? ==>
        issues == old(issues) && error == LoadFailurePrefix + fetched.err.message
      ensures showResolved == old(showResolved) && resolving == old(resolving)
      ensures syncing == old(syncing)
    {
      mounted := true;
      requested := LoadIssues(fetched);
    }

    /** The mount effect's cleanup. */
    method Unmount()
      modifies this
      ensures !mounted
      ensures showResolved == old(showResolved) && issues == old(issues) && loading == old(loading)
      ensures resolving == old(resolving) && error == old(error) && syncing == old(syncing)
    {
      mounted := false;
    }

    /** A new `showResolved` prop: the effect's cleanup, then the effect. */
    method ShowResolvedChanged(value: bool, fetched: Outcome<IssuesData>) returns (requested: bool)
      modifies this
      ensures showResolved == value && requested == value && mounted && !loading
      ensures fetched.Done? ==> issues == Listed(fetched.value) && error == ""
      ensures fetched.Threw? ==>
        issues == old(issues) && error == LoadFailurePrefix + fetched.err.message
      ensures resolving == old(resolving) && syncing == old(syncing)
    {
      Unmount();
      showResolved := value;
      requested := Mount(fetched);
    }

    /** One tick of the poll interval. There is no interval while loading,
        and a tick does nothing once unmounted. A failed poll is silent; a
        result arriving after unmounting is dropped and leaves the sync
        flag as it was set. */
    method PollTick(fetched: Outcome<IssuesData>, unmountedMeanwhile: bool) returns (polled: bool)
      modifies this
      ensures polled == (!old(loading) && old(mounted))
      ensures !polled ==> issues == old(issues) && syncing == old(syncing) && mounted == old(mounted)
      ensures polled ==> mounted == !unmountedMeanwhile && syncing == unmountedMeanwhile
      ensures issues == (if polled && !unmountedMeanwhile && fetched.Done?
                         then Listed(fetched.value) else old(issues))
      ensures error == old(error) && loading == old(loading)
      ensures resolving == old(resolving) && showResolved == old(showResolved)
    {
      polled := !loading && mounted;
      if polled {
        syncing := true;
        if unmountedMeanwhile {
          mounted := false;
        }
        if mounted && fetched.Done? {
          issues := Listed(fetched.value);
        }
        if mounted {
          syncing := false;
        }
      }
    }

    /** `handleResolve(id)`: `result` is what `resolveIssue(id)` did. While
        the call is outstanding the issue is marked as resolving; afterwards
        the mark is false again. On success the issue leaves the list. */
    method HandleResolve(id: string, result: Outcome<()>) returns (ghost whileWaiting: map<string, bool>)
      modifies this
      ensures whileWaiting == old(resolving)[id := true]
      ensures resolving == old(resolving)[id := false]
      ensures result.Done? ==> issues == WithoutId(old(issues), id) && error == old(error)
      ensures result.Threw? ==>
        issues == old(issues) && error == ResolveFailurePrefix + result.err.message
      ensures loading == old(loading) && syncing == old(syncing) && mounted == old(mounted)
      ensures showResolved == old(showResolved)
    {
      var before := resolving;
      resolving := before[id := true];
      whileWaiting := resolving;
      if result.Done? {
        issues := WithoutId(issues, id);
      } else {
        error := ResolveFailurePrefix + result.err.message;
      }
      resolving := before[id := false];
    }

    /** What the component renders: the spinner while loading, else the
        error when there is one, else the issues with the sync banner. */
    function View(): (v: ListView)
      reads this
      ensures v.LoadingSpinner? <==> loading
      ensures v.ErrorBox? <==> !loading && error != ""
      ensures v.ErrorBox? ==> v.message == error
      ensures v.Entries? ==> v.shown == issues && v.syncBanner == syncing
    {
      if loading then LoadingSpinner
      else if error != "" then ErrorBox(error)
      else Entries(issues, syncing)
    }

    /** `resolving[id]` disables an issue's button. */
    function ResolveDisabled(id: string): (b: bool)
      reads this
      ensures b <==> id in resolving && resolving[id]
    {
      id in resolving && resolving[id]
    }
  }

  /** Mounting on a list and resolving one of its issues: the issue is gone
      from the list, everything else is kept in order, and its button is
      enabled again. */
  method MountThenResolve(issues: seq<Issue>, id: string) returns (listed: seq<Issue>, disabled: bool)
    ensures listed == WithoutId(issues, id)
    ensures forall x :: x in listed <==> x in issues && x.id != id
    ensures !disabled
  {
    var list := new IssuesList(false);
    var _ := list.Mount(Done(IssuesData(Some(issues))));
    ghost var _ := list.HandleResolve(id, Done(()));
    listed := list.issues;
    disabled := list.ResolveDisabled(id);
  }
}
