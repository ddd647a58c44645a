/**
 * Tickets as the client pages hold them, after `fetch("/api/tickets")`, and the status
 * filter and per-status counts that the two admin pages share.
 */
module Issues {
  import opened Wrappers
  import opened Sequences

  /** The statuses the admin pages offer, which are not those of the ticket schema. */
  const Open := "open"
  const InProgress := "in_progress"
  const Resolved := "resolved"
  const Invalid := "invalid"
  /** The filter value that selects every issue. */
  const All := "all"

  /** `location` arrives as an object with an address, as a plain string, or not at all. */
  datatype IssueLocation = Missing | Text(text: string) | Place(address: Option<string>)

  datatype Issue = Issue(
    id: nat,
    title: string,
    description: string,
    category: string,
    status: string,
    location: IssueLocation,
    userEmail: string,
    resolution: Option<string>)

  function StatusIs(status: string): Issue -> bool {
    (i: Issue) => i.status == status
  }

  /** `filteredIssues` of both admin pages: "all", or the issues with exactly that status, in order. */
  function ByStatus(issues: seq<Issue>, filter: string): (r: seq<Issue>)
    ensures filter == All ==> r == issues
    ensures filter != All ==> forall i :: i in r <==> i in issues && i.status == filter
  {
    if filter == All then issues
    else
      var r := Filter(issues, StatusIs(filter));
      assert forall i :: i in issues && i.status == filter ==> i in r by {
        forall i | i in issues && i.status == filter ensures i in r {
          FilterKeeps(issues, StatusIs(filter), i);
        }
      }
      r
  }

  /** The filter keeps the list's order: filtering a concatenation filters each part. */
  lemma ByStatusKeepsOrder(a: seq<Issue>, b: seq<Issue>, filter: string)
    ensures ByStatus(a + b, filter) == ByStatus(a, filter) + ByStatus(b, filter)
  {
    if filter != All {
      FilterAppend(a, b, StatusIs(filter));
    }
  }

  /** `issues.filter((i) => i.status === status).length`. */
  function Count(issues: seq<Issue>, status: string): (n: nat)
    ensures n <= |issues|
  {
    |Filter(issues, StatusIs(status))|
  }

  /** Issues whose status is none of the given ones. */
  function NoneOf(statuses: seq<string>): Issue -> bool {
    (i: Issue) => i.status !in statuses
  }

  /**
   * The counts of four distinct statuses and the issues with any other status add up to
   * the whole list: every issue is counted once, and those with other statuses not at all.
   */
  lemma {:induction false} CountsPartition(issues: seq<Issue>, a: string, b: string, c: string, d: string)
    requires a != b && a != c && a != d && b != c && b != d && c != d
    ensures Count(issues, a) + Count(issues, b) + Count(issues, c) + Count(issues, d)
            + |Filter(issues, NoneOf([a, b, c, d]))| == |issues|
  {
    if issues != [] {
      CountsPartition(issues[1..], a, b, c, d);
    }
  }
}
