/**
 * The citizens' community page (src/app/dashboard/community-issues/page.tsx): the status
 * and search filter and the status labels.
 */
module CommunityIssuesPage {
  import opened Wrappers
  import opened Text
  import opened Sequences
  import opened Issues

  /** The search test: a case-insensitive substring of the title, the description or the category. */
  predicate MatchesSearch(i: Issue, search: string) {
    var q := Lower(search);
    Includes(Lower(i.title), q) || Includes(Lower(i.description), q) || Includes(Lower(i.category), q)
  }

  predicate Matches(i: Issue, filter: string, search: string) {
    (filter == All || i.status == filter) && MatchesSearch(i, search)
  }

  function Shown(filter: string, search: string): Issue -> bool {
    (i: Issue) => Matches(i, filter, search)
  }

  /** `filteredIssues`: the issues that match both the status filter and the search, in order. */
  function Visible(issues: seq<Issue>, filter: string, search: string): (r: seq<Issue>)
    ensures |r| <= |issues|
    ensures forall i :: i in r <==> i in issues && Matches(i, filter, search)
  {
    var r := Filter(issues, Shown(filter, search));
    forall i | i in issues && Matches(i, filter, search) ensures i in r {
      FilterKeeps(issues, Shown(filter, search), i);
    }
    r
  }

  /** Every string contains the empty one. */
  lemma IncludesEmpty(s: string)
    ensures Includes(s, "")
  {
    assert OccursAt(s, "", 0);
  }

  /** With filter "all" and an empty search the whole list is shown. */
  lemma EverythingShownByDefault(issues: seq<Issue>)
    ensures Visible(issues, All, "") == issues
  {
    forall k | 0 <= k < |issues| ensures Shown(All, "")(issues[k]) {
      IncludesEmpty(Lower(issues[k].title));
    }
    FilterAll(issues, Shown(All, ""));
  }

  /** The search ignores case: typing it in capitals, or in small letters, shows the same issues. */
  lemma SearchIgnoresCase(issues: seq<Issue>, filter: string, search: string)
    ensures Visible(issues, filter, Upper(search)) == Visible(issues, filter, search)
    ensures Visible(issues, filter, Lower(search)) == Visible(issues, filter, search)
  {
    LowerForgetsCase(search);
    LowerIdempotent(search);
    FilterAgree(issues, Shown(filter, Upper(search)), Shown(filter, search));
    FilterAgree(issues, Shown(filter, Lower(search)), Shown(filter, search));
  }

  /** The filter keeps the list's order: filtering a concatenation filters each part. */
  lemma VisibleKeepsOrder(a: seq<Issue>, b: seq<Issue>, filter: string, search: string)
    ensures Visible(a + b, filter, search) == Visible(a, filter, search) + Visible(b, filter, search)
  {
    FilterAppend(a, b, Shown(filter, search));
  }

  /** `getStatusText(status)`: a label for the three known statuses, any other status as it is. */
  function StatusText(status: string): (t: string)
    ensures t == status <==> status !in [Open, InProgress, Resolved]
    ensures status == Open ==> t == "Open"
    ensures status == InProgress ==> t == "In Progress"
    ensures status == Resolved ==> t == "Resolved"
  {
    if status == Open then "Open"
    else if status == InProgress then "In Progress"
    else if status == Resolved then "Resolved"
    else status
  }

  /** `getStatusColor(status)`: white for any status but the three known ones. */
  function StatusColor(status: string): (c: string)
    ensures status == Open ==> c == "#ff6b6b"
    ensures status == InProgress ==> c == "#ffd93d"
    ensures status == Resolved ==> c == "#6bcf7f"
    ensures c == "#fff" <==> status !in [Open, InProgress, Resolved]
  {
    if status == Open then "#ff6b6b"
    else if status == InProgress then "#ffd93d"
    else if status == Resolved then "#6bcf7f"
    else "#fff"
  }
}
