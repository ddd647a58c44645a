/** The admin overview page (src/app/admin/page.tsx): counts, status classes and the status change it sends. */
module AdminPage {
  import opened Wrappers
  import opened Sequences
  import opened Issues
  import TicketModel
  import TicketsRoute

  /** This page counts three statuses; "invalid" issues are in the total only. */
  datatype Stats = Stats(total: nat, open: nat, inProgress: nat, resolved: nat)

  function StatsOf(issues: seq<Issue>): (s: Stats)
    ensures s.total == |issues|
    ensures s.open == |ByStatus(issues, Open)| && s.inProgress == |ByStatus(issues, InProgress)|
    ensures s.resolved == |ByStatus(issues, Resolved)|
  {
    Stats(|issues|, Count(issues, Open), Count(issues, InProgress), Count(issues, Resolved))
  }

  /** The three counts fall short of the total by the "invalid" issues and those of unknown status. */
  lemma StatsLeaveOutInvalid(issues: seq<Issue>)
    ensures var s := StatsOf(issues);
            s.open + s.inProgress + s.resolved + Count(issues, Invalid)
            + |Filter(issues, NoneOf([Open, InProgress, Resolved, Invalid]))| == s.total
    ensures var s := StatsOf(issues);
            s.open + s.inProgress + s.resolved <= s.total
  {
    CountsPartition(issues, Open, InProgress, Resolved, Invalid);
  }

  /** `getStatusClass(status)`. */
  function StatusClass(status: string): (c: string)
    ensures c == "" <==> status !in [Open, InProgress, Resolved]
    ensures status == Open ==> c == "open"
    ensures status == InProgress ==> c == "inProgress"
    ensures status == Resolved ==> c == "resolved"
  {
    if status == Open then "open"
    else if status == InProgress then "inProgress"
    else if status == Resolved then "resolved"
    else ""
  }

  /** The body of `updateIssueStatus(ticketId, newStatus)`: no resolution is ever sent. */
  function StatusChange(ticketId: nat, newStatus: string): (u: TicketsRoute.UpdateRequest)
    ensures u.ticketId == ticketId && u.status == Some(newStatus) && u.resolution.None?
  {
    TicketsRoute.UpdateRequest(ticketId, Some(newStatus), None)
  }

  /** A status change from this page sets the status and leaves the resolution as it was. */
  lemma StatusChangeKeepsResolution(t: TicketModel.Ticket, newStatus: string, now: int)
    ensures var after := TicketsRoute.ApplyUpdate(t, StatusChange(t.id, newStatus), now);
            after.status == newStatus && after.resolution == t.resolution
  {
  }
}
