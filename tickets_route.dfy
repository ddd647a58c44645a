/** POST, GET and PUT /api/tickets (src/app/api/tickets/route.ts). */
module TicketsRoute {
  import opened Wrappers
  import opened Text
  import opened Sequences
  import opened Http
  import opened TicketModel

  /** The JSON body of a POST; `priority` may be sent but is never read. */
  datatype TicketBody = TicketBody(
    title: Option<string>,
    description: Option<string>,
    category: Option<string>,
    priority: Option<string>,
    location: Option<LocationInput>,
    images: Option<seq<string>>,
    userEmail: Option<string>)

  datatype Submitted = Submitted(message: string, ticket: Ticket)

  /** What POST hands to `new Ticket`: priority fixed to "medium", images defaulting to none. */
  function DraftOf(b: TicketBody): (d: Draft)
    ensures d.priority == DefaultPriority
    ensures d.images == (if b.images.Some? then b.images.value else [])
    ensures d.title == b.title && d.description == b.description && d.category == b.category
    ensures d.location == b.location && d.userEmail == b.userEmail
  {
    Draft(b.title, b.description, b.category, DefaultPriority, b.location, b.userEmail, b.images.GetOr([]))
  }

  /**
   * POST at time `now`. A valid ticket is appended and returned with 201; a database
   * failure or a failed validation is the same generic 500.
   */
  method Create(store: TicketStore, body: TicketBody, now: int, dbUp: bool) returns (r: Response<Submitted>)
    requires store.Valid()
    modifies store
    ensures store.Valid()
    ensures var t := NewTicket(DraftOf(body), old(store.nextId), now);
            && (r.status == 201 <==> dbUp && t.Some?)
            && (r.status == 201 ==>
                  && r == Ok(201, Submitted("Issue submitted successfully!", t.value))
                  && store.tickets == old(store.tickets) + [t.value]
                  && store.nextId == old(store.nextId) + 1)
    ensures r.status != 201 ==>
              && r == Fail(500, "Failed to submit issue. Please try again.")
              && store.tickets == old(store.tickets) && store.nextId == old(store.nextId)
  {
    if !dbUp {
      return Fail(500, "Failed to submit issue. Please try again.");
    }
    var t := NewTicket(DraftOf(body), store.nextId, now);
    if t.None? {
      return Fail(500, "Failed to submit issue. Please try again.");
    }
    AppendKeepsDistinct(store.tickets, store.nextId, t.value);
    store.tickets := store.tickets + [t.value];
    store.nextId := store.nextId + 1;
    r := Ok(201, Submitted("Issue submitted successfully!", t.value));
  }

  /** Whatever priority the body names, the ticket is created at "medium", "open" and unresolved. */
  lemma CreateIgnoresPriority(body: TicketBody, p: Option<string>, id: nat, now: int)
    ensures NewTicket(DraftOf(body.(priority := p)), id, now) == NewTicket(DraftOf(body), id, now)
    ensures NewTicket(DraftOf(body), id, now).Some? ==>
              var t := NewTicket(DraftOf(body), id, now).value;
              t.priority == DefaultPriority && t.status == DefaultStatus && t.resolution.None?
  {
  }

  /** The query string of a GET: `userEmail` and `admin`, each possibly absent. */
  datatype Query = Query(userEmail: Option<string>, admin: Option<string>)

  datatype TicketList = TicketList(tickets: seq<Ticket>)

  function OwnedBy(email: string): Ticket -> bool {
    (t: Ticket) => t.userEmail == Some(email)
  }

  function CreatedAt(t: Ticket): int {
    t.createdAt
  }

  /** Only `admin=true` counts as admin; a non-admin with a non-empty email sees only that email's tickets. */
  predicate Restricted(q: Query) {
    q.admin != Some("true") && Truthy(q.userEmail)
  }

  /** The `find(filter)` of a GET: all tickets, or those of one email. */
  function Selected(q: Query, tickets: seq<Ticket>): (r: seq<Ticket>)
    ensures forall t :: t in r ==> t in tickets && (Restricted(q) ==> t.userEmail == q.userEmail)
  {
    if Restricted(q) then Filter(tickets, OwnedBy(q.userEmail.value)) else tickets
  }

  /** GET: the tickets the query selects, newest first; a database failure is 500. */
  function ListTickets(dbUp: bool, q: Query, tickets: seq<Ticket>): (r: Response<TicketList>)
    ensures !dbUp ==> r == Fail(500, "Internal server error")
    ensures dbUp ==> r.status == 200 && r.body.Success?
    ensures dbUp ==> NewestFirst(r.body.data.tickets, CreatedAt)
    ensures dbUp ==> forall t :: t in r.body.data.tickets ==>
              t in tickets && (Restricted(q) ==> t.userEmail == q.userEmail)
  {
    if !dbUp then Fail(500, "Internal server error")
    else
      var selected := Selected(q, tickets);
      var sorted := SortNewestFirst(selected, CreatedAt);
      SameElements(sorted, selected);
      Ok(200, TicketList(sorted))
  }

  /** Conversely every selected ticket is listed, as often as it is stored. */
  lemma ListsEverySelected(q: Query, tickets: seq<Ticket>)
    ensures var listed := ListTickets(true, q, tickets).body.data.tickets;
            Restricted(q) ==> multiset(listed) == multiset(Filter(tickets, OwnedBy(q.userEmail.value)))
    ensures var listed := ListTickets(true, q, tickets).body.data.tickets;
            !Restricted(q) ==> multiset(listed) == multiset(tickets)
  {
  }

  /** With a restricting query, a stored ticket is listed exactly when it carries that email. */
  lemma ListedIffOwned(q: Query, tickets: seq<Ticket>, t: Ticket)
    requires t in tickets
    ensures t in ListTickets(true, q, tickets).body.data.tickets <==> !Restricted(q) || t.userEmail == q.userEmail
  {
    var listed := ListTickets(true, q, tickets).body.data.tickets;
    ListsEverySelected(q, tickets);
    if Restricted(q) && t.userEmail == q.userEmail {
      FilterKeeps(tickets, OwnedBy(q.userEmail.value), t);
      assert t in multiset(listed);
    } else if !Restricted(q) {
      assert t in multiset(listed);
    }
  }

  /** The JSON body of a PUT. */
  datatype UpdateRequest = UpdateRequest(ticketId: nat, status: Option<string>, resolution: Option<string>)

  datatype UpdatedTicket = UpdatedTicket(message: string, ticket: Option<Ticket>)

  /**
   * `findByIdAndUpdate(id, updateData)` applied to ticket `t` at time `now`. `updateData`
   * always carries `status` (an absent one is dropped from the update); `resolution` only
   * when truthy, through its `trim` setter. No validator runs.
   */
  function ApplyUpdate(t: Ticket, u: UpdateRequest, now: int): (r: Ticket)
    ensures r.status == (if u.status.Some? then u.status.value else t.status)
    ensures Truthy(u.resolution) ==> r.resolution == Some(Trim(u.resolution.value))
    ensures !Truthy(u.resolution) ==> r.resolution == t.resolution
    ensures r.updatedAt == now
    ensures r.(status := t.status, resolution := t.resolution, updatedAt := t.updatedAt) == t
  {
    var status := if u.status.Some? then u.status.value else t.status;
    var resolution := if Truthy(u.resolution) then Some(Trim(u.resolution.value)) else t.resolution;
    t.(status := status, resolution := resolution, updatedAt := now)
  }

  /** Sending the same update twice leaves the ticket as the first left it. */
  lemma ApplyUpdateIdempotent(t: Ticket, u: UpdateRequest, now: int)
    ensures ApplyUpdate(ApplyUpdate(t, u, now), u, now) == ApplyUpdate(t, u, now)
  {
  }

  /**
   * The update keeps a valid ticket valid exactly when the new status is in the schema's
   * enum and a written resolution fits `maxlength`: since no validator runs, the statuses
   * the admin pages send ("in_progress", "invalid") are stored regardless.
   */
  lemma UpdateBypassesSchema(t: Ticket, u: UpdateRequest, now: int)
    requires Conforms(t)
    ensures Conforms(ApplyUpdate(t, u, now)) <==>
              && (u.status.Some? ==> u.status.value in SchemaStatuses)
              && (Truthy(u.resolution) ==> |Trim(u.resolution.value)| <= ResolutionMaxLength)
  {
  }

  function HasTicketId(id: nat): Ticket -> bool {
    (t: Ticket) => t.id == id
  }

  /**
   * PUT at time `now`. The ticket with the id is updated and returned; an unknown id
   * still answers 200, with no ticket. A database failure is 500.
   */
  method Update(store: TicketStore, u: UpdateRequest, now: int, dbUp: bool) returns (r: Response<UpdatedTicket>)
    requires store.Valid()
    modifies store
    ensures store.Valid() && store.nextId == old(store.nextId)
    ensures !dbUp ==> r == Fail(500, "Failed to update ticket") && store.tickets == old(store.tickets)
    ensures dbUp ==> var k := FirstMatch(old(store.tickets), HasTicketId(u.ticketId));
            if k < |old(store.tickets)| then
              var updated := ApplyUpdate(old(store.tickets)[k], u, now);
              && store.tickets == old(store.tickets)[k := updated]
              && r == Ok(200, UpdatedTicket("Ticket updated successfully!", Some(updated)))
            else
              && store.tickets == old(store.tickets)
              && r == Ok(200, UpdatedTicket("Ticket updated successfully!", None))
  {
    if !dbUp {
      return Fail(500, "Failed to update ticket");
    }
    var k := FirstMatch(store.tickets, HasTicketId(u.ticketId));
    if k == |store.tickets| {
      return Ok(200, UpdatedTicket("Ticket updated successfully!", None));
    }
    var updated := ApplyUpdate(store.tickets[k], u, now);
    store.tickets := store.tickets[k := updated];
    r := Ok(200, UpdatedTicket("Ticket updated successfully!", Some(updated)));
  }
}
