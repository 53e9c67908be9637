/** Issue reports as the client handles them: the records `getIssues`
    resolves with, the payload `reportIssue` sends, and the list operations
    the issue pages apply (removing a resolved issue, counting open and
    resolved ones). `getIssues`, `resolveIssue` and `reportIssue` are
    imported from the API module, which does not define them; their
    outcomes are parameters of the pages that call them. */
module Issues {
  import opened Outcomes

  /** One reported issue. */
  datatype Issue = Issue(id: string, issue: string, description: string, resolved: bool,
                         createdAt: Option<string>)

  /** What `getIssues(showResolved)` resolves with: `{ issues }`, where
      `issues` may be missing. */
  datatype IssuesData = IssuesData(issues: Option<seq<Issue>>)

  /** The payload of `reportIssue`. */
  datatype Ticket = Ticket(issue: string, description: string)

  const LoadFailurePrefix := "Failed to load issues: "
  const ResolveFailurePrefix := "Failed to resolve issue: "

  /** `data.issues || []`: a missing list counts as empty. */
  function Listed(data: IssuesData): (r: seq<Issue>)
    ensures data.issues.Some? ==> r == data.issues.value
    ensures data.issues.None? ==> r == []
  {
    data.issues.GetOr([])
  }

  /** `issues.filter(issue => issue.id !== id)`. */
  function WithoutId(issues: seq<Issue>, id: string): (r: seq<Issue>)
    ensures |r| <= |issues|
    ensures forall x :: x in r <==> x in issues && x.id != id
  {
    if issues == [] then []
    else if issues[0].id == id then WithoutId(issues[1..], id)
    else [issues[0]] + WithoutId(issues[1..], id)
  }

  /** Filtering distributes over concatenation, so the issues that stay
      keep their order. */
  lemma {:induction false} WithoutIdAppend(a: seq<Issue>, b: seq<Issue>, id: string)
    ensures WithoutId(a + b, id) == WithoutId(a, id) + WithoutId(b, id)
    decreases |a|
  {
    if a != [] {
      assert (a + b)[1..] == a[1..] + b;
      WithoutIdAppend(a[1..], b, id);
    } else {
      assert a + b == b;
    }
  }

  /** Removing an id no issue has changes nothing. */
  lemma {:induction false} WithoutAbsentId(issues: seq<Issue>, id: string)
    requires forall i :: 0 <= i < |issues| ==> issues[i].id != id
    ensures WithoutId(issues, id) == issues
    decreases |issues|
  {
    if issues != [] {
      WithoutAbsentId(issues[1..], id);
      assert [issues[0]] + issues[1..] == issues;
    }
  }

  /** Removing the same id twice is the same as removing it once. */
  lemma WithoutIdIdempotent(issues: seq<Issue>, id: string)
    ensures WithoutId(WithoutId(issues, id), id) == WithoutId(issues, id)
  {
    var r := WithoutId(issues, id);
    forall i | 0 <= i < |r| ensures r[i].id != id {
      assert r[i] in r;
    }
    WithoutAbsentId(r, id);
  }

  /** `issues.filter(i => !i.resolved).length`. */
  function OpenCount(issues: seq<Issue>): (n: nat)
    ensures n <= |issues|
  {
    if issues == [] then 0
    else (if issues[0].resolved then 0 else 1) + OpenCount(issues[1..])
  }

  /** `issues.filter(i => i.resolved).length`. */
  function ResolvedCount(issues: seq<Issue>): (n: nat)
    ensures n <= |issues|
  {
    if issues == [] then 0
    else (if issues[0].resolved then 1 else 0) + ResolvedCount(issues[1..])
  }

  /** The open and resolved counters always add up to the total shown. */
  lemma {:induction false} CountsAddUp(issues: seq<Issue>)
    ensures OpenCount(issues) + ResolvedCount(issues) == |issues|
    decreases |issues|
  {
    if issues != [] {
      CountsAddUp(issues[1..]);
    }
  }

  /** A list with no resolved issue has every issue open. */
  lemma {:induction false} OpenOnlyCounts(issues: seq<Issue>)
    requires forall i :: 0 <= i < |issues| ==> !issues[i].resolved
    ensures OpenCount(issues) == |issues| && ResolvedCount(issues) == 0
    decreases |issues|
  {
    if issues != [] {
      OpenOnlyCounts(issues[1..]);
    }
  }
}
