/**
 * The `Ticket` collection of src/models/Ticket.ts: the document, the `trim` setters, the
 * schema validators and defaults, and the collection the tickets route writes to.
 */
module TicketModel {
  import opened Wrappers
  import opened Text

  const TitleMaxLength: nat := 200
  const DescriptionMaxLength: nat := 2000
  const ResolutionMaxLength: nat := 1000
  const CommentMaxLength: nat := 500

  /** The `category` enum. */
  const Categories: seq<string> := ["infrastructure", "utilities", "safety", "environment", "transport", "other"]
  /** The `priority` enum and its default. */
  const Priorities: seq<string> := ["low", "medium", "high", "urgent"]
  const DefaultPriority := "medium"
  /**
   * The `status` enum and its default. The admin pages write and filter on a different
   * set, "open", "in_progress", "resolved" and "invalid"; the two are kept apart.
   */
  const SchemaStatuses: seq<string> := ["open", "in-progress", "resolved", "closed"]
  const DefaultStatus := "open"

  datatype Coordinates = Coordinates(latitude: real, longitude: real)
  datatype Location = Location(address: string, coordinates: Option<Coordinates>)
  datatype Comment = Comment(userId: nat, comment: string, createdAt: int)

  datatype Ticket = Ticket(
    id: nat,
    title: string,
    description: string,
    category: string,
    priority: string,
    status: string,
    resolution: Option<string>,
    location: Location,
    userEmail: Option<string>,
    images: seq<string>,
    upvotes: int,
    downvotes: int,
    comments: seq<Comment>,
    createdAt: int,
    updatedAt: int)

  /** A required, trimmed string field that passes `required` and `maxlength` after its setter. */
  predicate RequiredText(s: string, maxLength: nat) {
    s != "" && IsTrimmed(s) && |s| <= maxLength
  }

  /** The validators of `TicketSchema`, over a document whose setters have run. */
  predicate Conforms(t: Ticket) {
    && RequiredText(t.title, TitleMaxLength)
    && RequiredText(t.description, DescriptionMaxLength)
    && t.category in Categories
    && t.priority in Priorities
    && t.status in SchemaStatuses
    && (t.resolution.Some? ==> IsTrimmed(t.resolution.value) && |t.resolution.value| <= ResolutionMaxLength)
    && t.location.address != "" && IsTrimmed(t.location.address)
    && (forall c :: c in t.comments ==> RequiredText(c.comment, CommentMaxLength))
  }

  /** The `location` object of a request body; either member may be missing. */
  datatype LocationInput = LocationInput(address: Option<string>, coordinates: Option<Coordinates>)

  /** The fields `new Ticket({...})` receives; any of them may be missing from the body. */
  datatype Draft = Draft(
    title: Option<string>,
    description: Option<string>,
    category: Option<string>,
    priority: string,
    location: Option<LocationInput>,
    userEmail: Option<string>,
    images: seq<string>)

  /**
   * `new Ticket(draft)` followed by `save()` at time `now`: the `trim` setters run, the
   * defaults fill `status`, the votes and the comments, and validation either passes or
   * rejects the document.
   */
  function NewTicket(d: Draft, id: nat, now: int): (r: Option<Ticket>)
    ensures r.Some? ==> Conforms(r.value)
    ensures r.Some? ==>
              && r.value.id == id && r.value.status == DefaultStatus && r.value.resolution.None?
              && r.value.priority == d.priority && r.value.images == d.images && r.value.userEmail == d.userEmail
              && r.value.upvotes == 0 && r.value.downvotes == 0 && r.value.comments == []
              && r.value.createdAt == now && r.value.updatedAt == now
    ensures r.Some? <==>
              && d.title.Some? && RequiredText(Trim(d.title.value), TitleMaxLength)
              && d.description.Some? && RequiredText(Trim(d.description.value), DescriptionMaxLength)
              && d.category.Some? && d.category.value in Categories
              && d.priority in Priorities
              && d.location.Some? && d.location.value.address.Some? && Trim(d.location.value.address.value) != ""
  {
    if && d.title.Some? && RequiredText(Trim(d.title.value), TitleMaxLength)
       && d.description.Some? && RequiredText(Trim(d.description.value), DescriptionMaxLength)
       && d.category.Some? && d.category.value in Categories
       && d.priority in Priorities
       && d.location.Some? && d.location.value.address.Some? && Trim(d.location.value.address.value) != ""
    then
      Some(Ticket(id, Trim(d.title.value), Trim(d.description.value), d.category.value, d.priority, DefaultStatus,
                  None, Location(Trim(d.location.value.address.value), d.location.value.coordinates),
                  d.userEmail, d.images, 0, 0, [], now, now))
    else None
  }

  /** A title of blanks only is empty once trimmed, so `required` rejects the ticket. */
  lemma BlankTitleRejected(d: Draft, id: nat, now: int)
    requires d.title.Some? && forall i :: 0 <= i < |d.title.value| ==> IsSpace(d.title.value[i])
    ensures NewTicket(d, id, now).None?
  {
    TrimEmpty(d.title.value);
  }

  /** Any request field that is missing, or a category outside the enum, rejects the ticket. */
  lemma MissingFieldRejected(d: Draft, id: nat, now: int)
    requires d.title.None? || d.description.None? || d.category.None? || d.location.None?
             || (d.category.Some? && d.category.value !in Categories)
    ensures NewTicket(d, id, now).None?
  {
  }

  /** The tickets collection, in insertion order, with ids handed out by a counter. */
  predicate Distinct(tickets: seq<Ticket>, nextId: nat) {
    && (forall i, j :: 0 <= i < j < |tickets| ==> tickets[i].id != tickets[j].id)
    && (forall i :: 0 <= i < |tickets| ==> tickets[i].id < nextId)
  }

  /** Appending a ticket with the next id keeps ids unique and below the counter. */
  lemma {:induction false} AppendKeepsDistinct(tickets: seq<Ticket>, nextId: nat, t: Ticket)
    requires Distinct(tickets, nextId) && t.id == nextId
    ensures Distinct(tickets + [t], nextId + 1)
  {
  }

  class TicketStore {
    var tickets: seq<Ticket>
    var nextId: nat

    ghost predicate Valid()
      reads this
    {
      Distinct(tickets, nextId)
    }

    constructor ()
      ensures Valid() && tickets == [] && nextId == 0
    {
      tickets := [];
      nextId := 0;
    }
  }
}
