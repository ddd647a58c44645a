/**
 * The admin ticket page (src/app/admin-dashboard/tickets/page.tsx): counts per status,
 * the badge and location labels, and the edit state behind "Edit Status".
 */
module TicketsPage {
  import opened Wrappers
  import opened Text
  import opened Sequences
  import opened Issues
  import TicketModel
  import TicketsRoute

  datatype Stats = Stats(total: nat, open: nat, inProgress: nat, resolved: nat, invalid: nat)

  function StatsOf(issues: seq<Issue>): (s: Stats)
    ensures s.total == |issues|
    ensures s.open == |ByStatus(issues, Open)| && s.inProgress == |ByStatus(issues, InProgress)|
    ensures s.resolved == |ByStatus(issues, Resolved)| && s.invalid == |ByStatus(issues, Invalid)|
  {
    Stats(|issues|, Count(issues, Open), Count(issues, InProgress), Count(issues, Resolved), Count(issues, Invalid))
  }

  /**
   * The four counts never exceed the total, and fall short of it by exactly the issues
   * whose status the page does not know, such as the schema's "in-progress" and "closed".
   */
  lemma StatsAccountForEveryIssue(issues: seq<Issue>)
    ensures var s := StatsOf(issues);
            s.open + s.inProgress + s.resolved + s.invalid
            == s.total - |Filter(issues, NoneOf([Open, InProgress, Resolved, Invalid]))|
    ensures var s := StatsOf(issues);
            s.open + s.inProgress + s.resolved + s.invalid <= s.total
  {
    CountsPartition(issues, Open, InProgress, Resolved, Invalid);
  }

  /** The CSS class of a status badge. */
  datatype StatusStyle = StatusOpen | StatusInProgress | StatusResolved | StatusInvalid | StatusDefault

  function StyleOf(status: string): (c: StatusStyle)
    ensures status == Open ==> c == StatusOpen
    ensures status == InProgress ==> c == StatusInProgress
    ensures status == Resolved ==> c == StatusResolved
    ensures status == Invalid ==> c == StatusInvalid
    ensures c == StatusDefault <==> status !in [Open, InProgress, Resolved, Invalid]
  {
    if status == Open then StatusOpen
    else if status == InProgress then StatusInProgress
    else if status == Resolved then StatusResolved
    else if status == Invalid then StatusInvalid
    else StatusDefault
  }

  /** `status.replace("_", " ").toUpperCase()`: only the first underscore becomes a blank. */
  function BadgeText(status: string): (r: string)
    ensures |r| == |status|
    ensures forall i :: 0 <= i < |status| && i != FirstIndex(status, '_') ==> r[i] == UpperChar(status[i])
    ensures FirstIndex(status, '_') < |status| ==> r[FirstIndex(status, '_')] == ' '
  {
    Upper(ReplaceFirst(status, '_', ' '))
  }

  /** A status with a second underscore keeps it in the badge. */
  lemma LaterUnderscoresKept(status: string, i: nat)
    requires FirstIndex(status, '_') < i < |status| && status[i] == '_'
    ensures BadgeText(status)[i] == '_'
  {
  }

  const NoAddress := "Address not provided"

  /** The "Location:" line: the address, or the string, unless it is missing or empty. */
  function LocationLabel(loc: IssueLocation): (r: string)
    ensures r != ""
    ensures loc.Text? && loc.text != "" ==> r == loc.text
    ensures loc.Place? && Truthy(loc.address) ==> r == loc.address.value
    ensures r == NoAddress <==>
              match loc
              case Missing => true
              case Text(s) => s == "" || s == NoAddress
              case Place(a) => !Truthy(a) || a.value == NoAddress
  {
    match loc
    case Missing => NoAddress
    case Text(s) => if s != "" then s else NoAddress
    case Place(a) => if Truthy(a) then a.value else NoAddress
  }

  /** The body `updateIssueStatus` sends: an empty resolution is sent as `undefined`. */
  function UpdateBody(ticketId: nat, status: string, resolution: string): (u: TicketsRoute.UpdateRequest)
    ensures u.ticketId == ticketId && u.status == Some(status)
    ensures u.resolution.None? <==> resolution == ""
    ensures u.resolution.Some? ==> u.resolution.value == resolution
  {
    TicketsRoute.UpdateRequest(ticketId, Some(status), if resolution == "" then None else Some(resolution))
  }

  /** Saving with an empty resolution message keeps whatever resolution the ticket had. */
  lemma EmptyMessageKeepsResolution(t: TicketModel.Ticket, ticketId: nat, status: string, now: int)
    ensures TicketsRoute.ApplyUpdate(t, UpdateBody(ticketId, status, ""), now).resolution == t.resolution
    ensures TicketsRoute.ApplyUpdate(t, UpdateBody(ticketId, status, ""), now).status == status
  {
  }

  /** The page's editing state: which ticket is being edited, its chosen status, the resolution typed. */
  class EditSession {
    var editingTicket: Option<nat>
    var newStatus: string
    var resolutionMessage: string

    /** The resolution box is only shown while a ticket is being edited, so outside editing it is empty. */
    ghost predicate Valid()
      reads this
    {
      editingTicket.None? ==> resolutionMessage == ""
    }

    constructor ()
      ensures Valid() && editingTicket.None? && newStatus == "" && resolutionMessage == ""
    {
      editingTicket := None;
      newStatus := "";
      resolutionMessage := "";
    }

    /** `startEditing(ticketId, currentStatus)`. */
    method StartEditing(ticketId: nat, currentStatus: string)
      modifies this
      ensures Valid()
      ensures editingTicket == Some(ticketId) && newStatus == currentStatus && resolutionMessage == ""
    {
      editingTicket := Some(ticketId);
      newStatus := currentStatus;
      resolutionMessage := "";
    }

    /** `cancelEditing()`. */
    method CancelEditing()
      modifies this
      ensures Valid()
      ensures editingTicket.None? && newStatus == "" && resolutionMessage == ""
    {
      editingTicket := None;
      newStatus := "";
      resolutionMessage := "";
    }

    /** The status select, shown only while editing. */
    method ChooseStatus(status: string)
      requires Valid() && editingTicket.Some?
      modifies this
      ensures Valid()
      ensures newStatus == status
      ensures editingTicket == old(editingTicket) && resolutionMessage == old(resolutionMessage)
    {
      newStatus := status;
    }

    /** The resolution textarea, shown only while editing. */
    method TypeResolution(message: string)
      requires Valid() && editingTicket.Some?
      modifies this
      ensures Valid()
      ensures resolutionMessage == message
      ensures editingTicket == old(editingTicket) && newStatus == old(newStatus)
    {
      resolutionMessage := message;
    }

    /**
     * `saveChanges()`: sends an update only while a ticket is being edited; `responseOk`
     * is whether the PUT answered with a 2xx status. On success the editing id and the
     * message are cleared; on failure everything stays for another try.
     */
    method SaveChanges(responseOk: bool) returns (sent: Option<TicketsRoute.UpdateRequest>)
      requires Valid()
      modifies this
      ensures Valid()
      ensures old(editingTicket).None? ==> sent.None? && editingTicket.None?
      ensures old(editingTicket).Some? ==>
                sent == Some(UpdateBody(old(editingTicket).value, old(newStatus), old(resolutionMessage)))
      ensures old(editingTicket).Some? && responseOk ==> editingTicket.None? && resolutionMessage == ""
      ensures old(editingTicket).Some? && !responseOk ==>
                editingTicket == old(editingTicket) && resolutionMessage == old(resolutionMessage)
      ensures newStatus == old(newStatus)
    {
      sent := None;
      if editingTicket.Some? {
        sent := Some(UpdateBody(editingTicket.value, newStatus, resolutionMessage));
        if responseOk {
          editingTicket := None;
          resolutionMessage := "";
        }
      }
    }
  }
}
