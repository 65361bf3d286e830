/**
  agent_system/ticket_system.py: the TicketManager of one project, over the
  ticket, comment and agent tables of a Store. Every failing operation is
  rolled back, so a failure leaves the tables as they were. SQLite, the
  configured engine, does not enforce foreign keys, so no operation here
  checks that a referenced project, agent or parent ticket exists unless
  the source looks it up itself.
*/
module TicketSystem {
  import opened Wrappers
  import opened Strings
  import opened Models
  import opened Database

  /** The `{"id", "name", "role"}` dict describing an agent. */
  datatype AgentInfo = AgentInfo(id: int, name: string, role: AgentRole)

  /** The dict `get_ticket` / `get_all_tickets` build: the ticket's id, its row and its assignee. */
  datatype TicketInfo = TicketInfo(id: int, ticket: Ticket, assignedTo: Option<AgentInfo>)

  /** The dict `get_ticket_comments` builds for one comment. */
  datatype CommentInfo = CommentInfo(id: int, content: string, createdAt: int, isUser: bool, agent: Option<AgentInfo>)

  /** `if x.agent_id: agent = Agent.query.get(x.agent_id); if agent: {...}`: only a truthy id
      that names a stored agent is described. */
  function AgentRef(agents: seq<AgentRecord>, agentId: Option<int>): (r: Option<AgentInfo>)
    ensures r.Some? <==> agentId.Some? && agentId.value != 0 && 1 <= agentId.value <= |agents|
    ensures r.Some? ==> r.value.id == agentId.value && r.value.name == agents[agentId.value - 1].name
                        && r.value.role == agents[agentId.value - 1].role
  {
    if agentId.Some? && agentId.value != 0 then
      match Lookup(agents, agentId.value)
      case None => None
      case Some(a) => Some(AgentInfo(agentId.value, a.name, a.role))
    else None
  }

  function InfoOf(tickets: seq<Ticket>, agents: seq<AgentRecord>, id: int): TicketInfo
    requires 1 <= id <= |tickets|
  {
    TicketInfo(id, tickets[id - 1], AgentRef(agents, tickets[id - 1].assignedAgentId))
  }

  /** The query `filter_by(project_id=...)`, optionally `.filter_by(status=...)`. */
  predicate Selects(t: Ticket, projectId: int, filter: Option<TicketStatus>) {
    t.projectId == projectId && (filter.None? || t.status == filter.value)
  }

  /** The tickets among the first `n` rows that the query selects, in id order, described. */
  function Listing(tickets: seq<Ticket>, agents: seq<AgentRecord>, projectId: int,
                   filter: Option<TicketStatus>, n: nat): seq<TicketInfo>
    requires n <= |tickets|
  {
    if n == 0 then []
    else Listing(tickets, agents, projectId, filter, n - 1)
         + (if Selects(tickets[n - 1], projectId, filter) then [InfoOf(tickets, agents, n)] else [])
  }

  /** The comments of ticket `ticketId` among the first `n` rows, in id order, described. */
  function CommentListing(comments: seq<Comment>, agents: seq<AgentRecord>, ticketId: int, n: nat): seq<CommentInfo>
    requires n <= |comments|
  {
    if n == 0 then []
    else
      var c := comments[n - 1];
      CommentListing(comments, agents, ticketId, n - 1)
      + (if c.ticketId == ticketId then [CommentInfo(n, c.content, c.createdAt, c.isUser, AgentRef(agents, c.agentId))]
         else [])
  }

  // ---------------------------------------------------------------------------
  // update_ticket(**kwargs) as a typed patch

  /** A value given for an enum field: a name to look up after upper-casing, or a member. */
  datatype EnumArg<T> = Named(name: string) | Member(value: T)

  /** One keyword argument of `update_ticket`. `Unknown` is a key the ticket has no attribute for. */
  datatype FieldUpdate =
    | SetTitle(title: string)
    | SetDescription(description: Option<string>)
    | SetStatus(status: EnumArg<TicketStatus>)
    | SetPriority(priority: EnumArg<TicketPriority>)
    | SetDueDate(dueDate: Option<int>)
    | SetProjectId(projectId: int)
    | SetAssignedAgentId(assignedAgentId: Option<int>)
    | SetParentTicketId(parentTicketId: Option<int>)
    | Unknown(key: string)

  /** One step of the `setattr` loop; None when `getattr` on the enum raises. */
  function ApplyOne(t: Ticket, u: FieldUpdate): Option<Ticket> {
    match u
    case SetTitle(x) => Some(t.(title := x))
    case SetDescription(x) => Some(t.(description := x))
    case SetStatus(Member(s)) => Some(t.(status := s))
    case SetStatus(Named(n)) =>
      (match StatusFromName(Upper(n))
       case None => None
       case Some(s) => Some(t.(status := s)))
    case SetPriority(Member(p)) => Some(t.(priority := p))
    case SetPriority(Named(n)) =>
      (match PriorityFromName(Upper(n))
       case None => None
       case Some(p) => Some(t.(priority := p)))
    case SetDueDate(x) => Some(t.(dueDate := x))
    case SetProjectId(x) => Some(t.(projectId := x))
    case SetAssignedAgentId(x) => Some(t.(assignedAgentId := x))
    case SetParentTicketId(x) => Some(t.(parentTicketId := x))
    case Unknown(_) => Some(t)
  }

  /** The whole loop, in keyword order; None as soon as one step fails. */
  function ApplyUpdates(t: Ticket, us: seq<FieldUpdate>): Option<Ticket>
    decreases |us|
  {
    if us == [] then Some(t)
    else
      match ApplyOne(t, us[0])
      case None => None
      case Some(t1) => ApplyUpdates(t1, us[1..])
  }

  /** A string value that does not name a member of its enum after upper-casing. */
  predicate BadName(u: FieldUpdate) {
    || (u.SetStatus? && u.status.Named? && StatusFromName(Upper(u.status.name)).None?)
    || (u.SetPriority? && u.priority.Named? && PriorityFromName(Upper(u.priority.name)).None?)
  }

  /** The keyword arguments with the ignored keys removed. */
  function KnownOnly(us: seq<FieldUpdate>): (r: seq<FieldUpdate>)
    ensures forall i :: 0 <= i < |r| ==> !r[i].Unknown?
    ensures |r| <= |us|
  {
    if us == [] then []
    else if us[0].Unknown? then KnownOnly(us[1..])
    else [us[0]] + KnownOnly(us[1..])
  }

  class TicketManager {
    const projectId: int
    const db: Store

    constructor (projectId: int, db: Store)
      ensures this.projectId == projectId && this.db == db
    {
      this.projectId := projectId;
      this.db := db;
    }

    /** `create_ticket`: the priority is looked up by its upper-cased name; an unknown name raises
        and nothing is added. Otherwise one OPEN ticket of this project is appended. */
    method CreateTicket(title: string, description: string, priority: string,
                        dueDate: Option<int>, parentTicketId: Option<int>) returns (r: Result<nat>)
      modifies db`tickets
      ensures PriorityFromName(Upper(priority)).None? ==> r == Err(InvalidName) && db.tickets == old(db.tickets)
      ensures PriorityFromName(Upper(priority)).Some? ==>
        && db.tickets == old(db.tickets) + [NewTicket(title, projectId, Some(description), Some(Open),
                                                      PriorityFromName(Upper(priority)), dueDate, None, parentTicketId, db.clock)]
        && r == Ok(|db.tickets|)
    {
      var p := PriorityFromName(Upper(priority));
      if p.None? {
        return Err(InvalidName);
      }
      var t := NewTicket(title, projectId, Some(description), Some(Open), p, dueDate, None, parentTicketId, db.clock);
      db.tickets := db.tickets + [t];
      r := Ok(|db.tickets|);
    }

    /** `get_ticket`: any stored ticket, whatever its project; None for a missing id. */
    method GetTicket(ticketId: int) returns (r: Option<TicketInfo>)
      ensures r.Some? <==> 1 <= ticketId <= |db.tickets|
      ensures r.Some? ==> r.value.id == ticketId && r.value.ticket == db.tickets[ticketId - 1]
                          && r.value.assignedTo == AgentRef(db.agents, db.tickets[ticketId - 1].assignedAgentId)
    {
      var t := Lookup(db.tickets, ticketId);
      if t.None? {
        return None;
      }
      r := Some(TicketInfo(ticketId, t.value, AgentRef(db.agents, t.value.assignedAgentId)));
    }

    /** `get_all_tickets`: the project's tickets, restricted to one status when a truthy status
        is given; a status that names no member after upper-casing raises. */
    method GetAllTickets(status: Option<string>) returns (r: Result<seq<TicketInfo>>)
      ensures !Truthy(status) ==> r == Ok(Listing(db.tickets, db.agents, projectId, None, |db.tickets|))
      ensures Truthy(status) && StatusFromName(Upper(status.value)).None? ==> r == Err(InvalidName)
      ensures Truthy(status) && StatusFromName(Upper(status.value)).Some? ==>
        r == Ok(Listing(db.tickets, db.agents, projectId, StatusFromName(Upper(status.value)), |db.tickets|))
    {
      var filter: Option<TicketStatus> := None;
      if Truthy(status) {
        filter := StatusFromName(Upper(status.value));
        if filter.None? {
          return Err(InvalidName);
        }
      }
      var result: seq<TicketInfo> := [];
      var i := 0;
      while i < |db.tickets|
        invariant 0 <= i <= |db.tickets|
        invariant result == Listing(db.tickets, db.agents, projectId, filter, i)
      {
        if Selects(db.tickets[i], projectId, filter) {
          result := result + [InfoOf(db.tickets, db.agents, i + 1)];
        }
        i := i + 1;
      }
      r := Ok(result);
    }

    /** `update_ticket`: False for a missing ticket or when a step of the patch fails (rolled
        back); otherwise the patched row replaces the ticket. */
    method UpdateTicket(ticketId: int, updates: seq<FieldUpdate>) returns (ok: bool)
      modifies db`tickets
      ensures !(1 <= ticketId <= |old(db.tickets)|) ==> !ok && db.tickets == old(db.tickets)
      ensures 1 <= ticketId <= |old(db.tickets)| ==>
        match ApplyUpdates(old(db.tickets)[ticketId - 1], updates)
        case None => !ok && db.tickets == old(db.tickets)
        case Some(t) => ok && db.tickets == old(db.tickets)[ticketId - 1 := Flushed(old(db.tickets)[ticketId - 1], t, db.clock)]
    {
      var found := Lookup(db.tickets, ticketId);
      if found.None? {
        return false;
      }
      var cur := found.value;
      var i := 0;
      while i < |updates|
        invariant 0 <= i <= |updates|
        invariant db.tickets == old(db.tickets)
        invariant ApplyUpdates(found.value, updates) == ApplyUpdates(cur, updates[i..])
      {
        assert updates[i..][0] == updates[i] && updates[i..][1..] == updates[i + 1..];
        var next := ApplyOne(cur, updates[i]);
        if next.None? {
          return false;
        }
        cur := next.value;
        i := i + 1;
      }
      assert updates[i..] == [];
      db.tickets := db.tickets[ticketId - 1 := Flushed(found.value, cur, db.clock)];
      ok := true;
    }

    /** `assign_ticket`: both the ticket and the agent must exist; the ticket is then assigned and
        set IN_PROGRESS whatever its previous status. */
    method AssignTicket(ticketId: int, agentId: int) returns (ok: bool)
      modifies db`tickets
      ensures ok <==> 1 <= ticketId <= |old(db.tickets)| && 1 <= agentId <= |db.agents|
      ensures !ok ==> db.tickets == old(db.tickets)
      ensures ok ==> db.tickets == old(db.tickets)[ticketId - 1 :=
                      Flushed(old(db.tickets)[ticketId - 1],
                              old(db.tickets)[ticketId - 1].(assignedAgentId := Some(agentId), status := InProgress), db.clock)]
    {
      var t := Lookup(db.tickets, ticketId);
      var a := Lookup(db.agents, agentId);
      if t.None? || a.None? {
        return false;
      }
      db.tickets := db.tickets[ticketId - 1 := Flushed(t.value, t.value.(assignedAgentId := Some(agentId), status := InProgress), db.clock)];
      ok := true;
    }

    /** `add_comment`: a missing ticket raises and adds nothing; otherwise one comment stamped with
        the current time is appended and its id returned. */
    method AddComment(ticketId: int, content: string, agentId: Option<int>, isUser: bool) returns (r: Result<nat>)
      requires db.Valid()
      modifies db`comments
      ensures db.Valid()
      ensures !(1 <= ticketId <= |db.tickets|) ==> r == Err(NotFound) && db.comments == old(db.comments)
      ensures 1 <= ticketId <= |db.tickets| ==>
        && db.comments == old(db.comments) + [Comment(content, db.clock, isUser, ticketId, agentId)]
        && r == Ok(|db.comments|)
    {
      if Lookup(db.tickets, ticketId).None? {
        return Err(NotFound);
      }
      db.comments := db.comments + [Comment(content, db.clock, isUser, ticketId, agentId)];
      r := Ok(|db.comments|);
    }

    /** `update_ticket_status`: False for a missing ticket; otherwise only that ticket's status changes. */
    method UpdateTicketStatus(ticketId: int, status: TicketStatus) returns (ok: bool)
      modifies db`tickets
      ensures ok <==> 1 <= ticketId <= |old(db.tickets)|
      ensures !ok ==> db.tickets == old(db.tickets)
      ensures ok ==> db.tickets == old(db.tickets)[ticketId - 1 :=
                       Flushed(old(db.tickets)[ticketId - 1], old(db.tickets)[ticketId - 1].(status := status), db.clock)]
    {
      var t := Lookup(db.tickets, ticketId);
      if t.None? {
        return false;
      }
      db.tickets := db.tickets[ticketId - 1 := Flushed(t.value, t.value.(status := status), db.clock)];
      ok := true;
    }

    /** `get_ticket_comments`: [] for a missing ticket; otherwise the ticket's comments in id order,
        which is creation-time order (see CommentListingSoundness). */
    method GetTicketComments(ticketId: int) returns (r: seq<CommentInfo>)
      ensures !(1 <= ticketId <= |db.tickets|) ==> r == []
      ensures 1 <= ticketId <= |db.tickets| ==> r == CommentListing(db.comments, db.agents, ticketId, |db.comments|)
    {
      if Lookup(db.tickets, ticketId).None? {
        return [];
      }
      r := [];
      var i := 0;
      while i < |db.comments|
        invariant 0 <= i <= |db.comments|
        invariant r == CommentListing(db.comments, db.agents, ticketId, i)
      {
        var c := db.comments[i];
        if c.ticketId == ticketId {
          r := r + [CommentInfo(i + 1, c.content, c.createdAt, c.isUser, AgentRef(db.agents, c.agentId))];
        }
        i := i + 1;
      }
    }
  }

  // ---------------------------------------------------------------------------
  // Properties of the listings

  /** `e` describes, from its own row, a ticket among the first `n` that the query selects. */
  predicate ListedTicket(tickets: seq<Ticket>, agents: seq<AgentRecord>, projectId: int,
                         filter: Option<TicketStatus>, n: nat, e: TicketInfo)
    requires n <= |tickets|
  {
    1 <= e.id <= n && e == InfoOf(tickets, agents, e.id) && Selects(tickets[e.id - 1], projectId, filter)
  }

  /** `e` describes, from its own row, a comment of ticket `ticketId` among the first `n`. */
  predicate ListedComment(comments: seq<Comment>, ticketId: int, n: nat, e: CommentInfo)
    requires n <= |comments|
  {
    && 1 <= e.id <= n
    && var c := comments[e.id - 1];
       c.ticketId == ticketId && e.content == c.content && e.createdAt == c.createdAt && e.isUser == c.isUser
  }

  /** Every entry of `l` is listed correctly, in increasing id order. */
  predicate TicketListingSound(l: seq<TicketInfo>, tickets: seq<Ticket>, agents: seq<AgentRecord>, projectId: int,
                               filter: Option<TicketStatus>, n: nat)
    requires n <= |tickets|
  {
    && (forall k :: 0 <= k < |l| ==> ListedTicket(tickets, agents, projectId, filter, n, l[k]))
    && (forall k, j :: 0 <= k < j < |l| ==> l[k].id < l[j].id)
  }

  /** Every selected ticket among the first `n` rows has an entry in `l`. */
  predicate TicketListingComplete(l: seq<TicketInfo>, tickets: seq<Ticket>, projectId: int,
                                  filter: Option<TicketStatus>, n: nat)
    requires n <= |tickets|
  {
    forall i :: 0 <= i < n && Selects(tickets[i], projectId, filter) ==>
      exists k :: 0 <= k < |l| && l[k].id == i + 1
  }

  /** Every entry of `l` is listed correctly, in increasing id and nondecreasing creation time. */
  predicate CommentListingSorted(l: seq<CommentInfo>, comments: seq<Comment>, ticketId: int, n: nat)
    requires n <= |comments|
  {
    && (forall k :: 0 <= k < |l| ==> ListedComment(comments, ticketId, n, l[k]))
    && (forall k, j :: 0 <= k < j < |l| ==> l[k].id < l[j].id && l[k].createdAt <= l[j].createdAt)
  }

  /** Every comment of ticket `ticketId` among the first `n` rows has an entry in `l`. */
  predicate CommentListingComplete(l: seq<CommentInfo>, comments: seq<Comment>, ticketId: int, n: nat)
    requires n <= |comments|
  {
    forall i :: 0 <= i < n && comments[i].ticketId == ticketId ==>
      exists k :: 0 <= k < |l| && l[k].id == i + 1
  }

  /** Every entry of the listing is a selected ticket, described from its own row, and the
      entries come in increasing id order. */
  lemma {:induction false} ListingSoundness(tickets: seq<Ticket>, agents: seq<AgentRecord>, projectId: int,
                                        filter: Option<TicketStatus>, n: nat)
    requires n <= |tickets|
    ensures TicketListingSound(Listing(tickets, agents, projectId, filter, n), tickets, agents, projectId, filter, n)
  {
    if n > 0 {
      ListingSoundness(tickets, agents, projectId, filter, n - 1);
      var prev := Listing(tickets, agents, projectId, filter, n - 1);
      var last := if Selects(tickets[n - 1], projectId, filter) then [InfoOf(tickets, agents, n)] else [];
      var l := prev + last;
      assert Listing(tickets, agents, projectId, filter, n) == l;
      forall k | 0 <= k < |l| ensures ListedTicket(tickets, agents, projectId, filter, n, l[k]) {
        if k < |prev| {
          assert l[k] == prev[k] && ListedTicket(tickets, agents, projectId, filter, n - 1, prev[k]);
        } else {
          assert l[k] == last[0] == InfoOf(tickets, agents, n);
        }
      }
      forall k, j | 0 <= k < j < |l| ensures l[k].id < l[j].id {
        assert l[k] == prev[k] && ListedTicket(tickets, agents, projectId, filter, n - 1, prev[k]);
        if j < |prev| {
          assert l[j] == prev[j];
        } else {
          assert l[j] == last[0] && l[j].id == n;
        }
      }
    }
  }

  /** Every selected ticket among the first `n` rows appears in the listing. */
  lemma {:induction false} ListingCompleteness(tickets: seq<Ticket>, agents: seq<AgentRecord>, projectId: int,
                                           filter: Option<TicketStatus>, n: nat)
    requires n <= |tickets|
    ensures TicketListingComplete(Listing(tickets, agents, projectId, filter, n), tickets, projectId, filter, n)
  {
    if n > 0 {
      ListingCompleteness(tickets, agents, projectId, filter, n - 1);
      var prev := Listing(tickets, agents, projectId, filter, n - 1);
      var last := if Selects(tickets[n - 1], projectId, filter) then [InfoOf(tickets, agents, n)] else [];
      var l := prev + last;
      assert Listing(tickets, agents, projectId, filter, n) == l;
      forall i | 0 <= i < n && Selects(tickets[i], projectId, filter)
        ensures exists k :: 0 <= k < |l| && l[k].id == i + 1
      {
        if i == n - 1 {
          assert l[|prev|].id == n;
        } else {
          var k :| 0 <= k < |prev| && prev[k].id == i + 1;
          assert l[k] == prev[k];
        }
      }
    }
  }

  /** The ids a listing holds. */
  function Ids(l: seq<TicketInfo>): set<int> {
    set k | 0 <= k < |l| :: l[k].id
  }

  /** Without a filter the listing holds every ticket of the project; with one it holds exactly
      those of the project that have that status. */
  lemma ListingMembers(tickets: seq<Ticket>, agents: seq<AgentRecord>, projectId: int, filter: Option<TicketStatus>)
    ensures forall i :: 0 <= i < |tickets| ==>
      (i + 1 in Ids(Listing(tickets, agents, projectId, filter, |tickets|))
       <==> tickets[i].projectId == projectId && (filter.None? || tickets[i].status == filter.value))
  {
    var l := Listing(tickets, agents, projectId, filter, |tickets|);
    forall i | 0 <= i < |tickets|
      ensures i + 1 in Ids(l) <==> Selects(tickets[i], projectId, filter)
    {
      if i + 1 in Ids(l) {
        ListedIdSelected(tickets, agents, projectId, filter, i);
      }
      if Selects(tickets[i], projectId, filter) {
        SelectedIdListed(tickets, agents, projectId, filter, i);
      }
    }
  }

  lemma ListedIdSelected(tickets: seq<Ticket>, agents: seq<AgentRecord>, projectId: int, filter: Option<TicketStatus>, i: nat)
    requires i < |tickets| && i + 1 in Ids(Listing(tickets, agents, projectId, filter, |tickets|))
    ensures Selects(tickets[i], projectId, filter)
  {
    var l := Listing(tickets, agents, projectId, filter, |tickets|);
    ListingSoundness(tickets, agents, projectId, filter, |tickets|);
    var k :| 0 <= k < |l| && l[k].id == i + 1;
    assert ListedTicket(tickets, agents, projectId, filter, |tickets|, l[k]);
  }

  lemma SelectedIdListed(tickets: seq<Ticket>, agents: seq<AgentRecord>, projectId: int, filter: Option<TicketStatus>, i: nat)
    requires i < |tickets| && Selects(tickets[i], projectId, filter)
    ensures i + 1 in Ids(Listing(tickets, agents, projectId, filter, |tickets|))
  {
    var l := Listing(tickets, agents, projectId, filter, |tickets|);
    ListingCompleteness(tickets, agents, projectId, filter, |tickets|);
    var k :| 0 <= k < |l| && l[k].id == i + 1;
    assert l[k].id in Ids(l);
  }

  /** Every entry of the comment listing is a comment of the ticket, described from its own row;
      entries come in increasing id order and hence, the clock never going back, in nondecreasing
      creation time. */
  lemma {:induction false} CommentListingSoundness(comments: seq<Comment>, agents: seq<AgentRecord>, ticketId: int, n: nat, clock: int)
    requires n <= |comments|
    requires CommentsStamped(comments, clock)
    ensures CommentListingSorted(CommentListing(comments, agents, ticketId, n), comments, ticketId, n)
  {
    if n > 0 {
      CommentListingSoundness(comments, agents, ticketId, n - 1, clock);
      var prev := CommentListing(comments, agents, ticketId, n - 1);
      var c := comments[n - 1];
      var last := if c.ticketId == ticketId then [CommentInfo(n, c.content, c.createdAt, c.isUser, AgentRef(agents, c.agentId))] else [];
      var l := prev + last;
      assert CommentListing(comments, agents, ticketId, n) == l;
      forall k | 0 <= k < |l| ensures ListedComment(comments, ticketId, n, l[k]) {
        if k < |prev| {
          assert l[k] == prev[k] && ListedComment(comments, ticketId, n - 1, prev[k]);
        } else {
          assert l[k] == last[0];
        }
      }
      forall k, j | 0 <= k < j < |l| ensures l[k].id < l[j].id && l[k].createdAt <= l[j].createdAt {
        assert l[k] == prev[k] && ListedComment(comments, ticketId, n - 1, prev[k]);
        var ik := prev[k].id - 1;
        assert 0 <= ik < n - 1 && prev[k].createdAt == comments[ik].createdAt;
        if j < |prev| {
          assert l[j] == prev[j];
        } else {
          assert l[j] == last[0] && l[j].id == n && l[j].createdAt == comments[n - 1].createdAt;
          assert comments[ik].createdAt <= comments[n - 1].createdAt;
        }
      }
    }
  }

  /** Every comment of the ticket among the first `n` rows appears in the listing. */
  lemma {:induction false} CommentListingCompleteness(comments: seq<Comment>, agents: seq<AgentRecord>, ticketId: int, n: nat)
    requires n <= |comments|
    ensures CommentListingComplete(CommentListing(comments, agents, ticketId, n), comments, ticketId, n)
  {
    if n > 0 {
      CommentListingCompleteness(comments, agents, ticketId, n - 1);
      var prev := CommentListing(comments, agents, ticketId, n - 1);
      var c := comments[n - 1];
      var last := if c.ticketId == ticketId then [CommentInfo(n, c.content, c.createdAt, c.isUser, AgentRef(agents, c.agentId))] else [];
      var l := prev + last;
      assert CommentListing(comments, agents, ticketId, n) == l;
      forall i | 0 <= i < n && comments[i].ticketId == ticketId
        ensures exists k :: 0 <= k < |l| && l[k].id == i + 1
      {
        if i == n - 1 {
          assert l[|prev|].id == n;
        } else {
          var k :| 0 <= k < |prev| && prev[k].id == i + 1;
          assert l[k] == prev[k];
        }
      }
    }
  }

  // ---------------------------------------------------------------------------
  // Properties of the patch

  /** Ignored keys make no difference. */
  lemma {:induction false} UnknownKeysIgnored(t: Ticket, us: seq<FieldUpdate>)
    ensures ApplyUpdates(t, us) == ApplyUpdates(t, KnownOnly(us))
    decreases |us|
  {
    if us != [] {
      if us[0].Unknown? {
        UnknownKeysIgnored(t, us[1..]);
      } else {
        var known := [us[0]] + KnownOnly(us[1..]);
        assert known[0] == us[0] && known[1..] == KnownOnly(us[1..]);
        match ApplyOne(t, us[0])
        case None =>
        case Some(t1) => UnknownKeysIgnored(t1, us[1..]);
      }
    }
  }

  /** The patch fails exactly when one of its string values names no enum member. */
  lemma {:induction false} PatchFailsIffBadName(t: Ticket, us: seq<FieldUpdate>)
    ensures ApplyUpdates(t, us).None? <==> exists i :: 0 <= i < |us| && BadName(us[i])
    decreases |us|
  {
    if us != [] {
      assert ApplyOne(t, us[0]).None? <==> BadName(us[0]);
      match ApplyOne(t, us[0])
      case None =>
      case Some(t1) =>
        PatchFailsIffBadName(t1, us[1..]);
        if exists i :: 1 <= i < |us| && BadName(us[i]) {
          var i :| 1 <= i < |us| && BadName(us[i]);
          assert us[1..][i - 1] == us[i];
        }
        if exists i :: 0 <= i < |us[1..]| && BadName(us[1..][i]) {
          var i :| 0 <= i < |us[1..]| && BadName(us[1..][i]);
          assert us[i + 1] == us[1..][i];
        }
    }
  }

  /** One step changes at most the field its keyword names. */
  lemma StepKeepsOtherFields(t: Ticket, u: FieldUpdate, t1: Ticket)
    requires ApplyOne(t, u) == Some(t1)
    ensures !u.SetTitle? ==> t1.title == t.title
    ensures !u.SetDescription? ==> t1.description == t.description
    ensures !u.SetStatus? ==> t1.status == t.status
    ensures !u.SetPriority? ==> t1.priority == t.priority
    ensures !u.SetDueDate? ==> t1.dueDate == t.dueDate
    ensures !u.SetProjectId? ==> t1.projectId == t.projectId
    ensures !u.SetAssignedAgentId? ==> t1.assignedAgentId == t.assignedAgentId
    ensures !u.SetParentTicketId? ==> t1.parentTicketId == t.parentTicketId
    ensures t1.createdAt == t.createdAt && t1.updatedAt == t.updatedAt
  {
  }

  /** A field that no keyword names keeps its value. */
  lemma {:induction false} UntouchedFieldsKept(t: Ticket, us: seq<FieldUpdate>, t': Ticket)
    requires ApplyUpdates(t, us) == Some(t')
    ensures (forall i :: 0 <= i < |us| ==> !us[i].SetTitle?) ==> t'.title == t.title
    ensures (forall i :: 0 <= i < |us| ==> !us[i].SetDescription?) ==> t'.description == t.description
    ensures (forall i :: 0 <= i < |us| ==> !us[i].SetStatus?) ==> t'.status == t.status
    ensures (forall i :: 0 <= i < |us| ==> !us[i].SetPriority?) ==> t'.priority == t.priority
    ensures (forall i :: 0 <= i < |us| ==> !us[i].SetDueDate?) ==> t'.dueDate == t.dueDate
    ensures (forall i :: 0 <= i < |us| ==> !us[i].SetProjectId?) ==> t'.projectId == t.projectId
    ensures (forall i :: 0 <= i < |us| ==> !us[i].SetAssignedAgentId?) ==> t'.assignedAgentId == t.assignedAgentId
    ensures (forall i :: 0 <= i < |us| ==> !us[i].SetParentTicketId?) ==> t'.parentTicketId == t.parentTicketId
    ensures t'.createdAt == t.createdAt && t'.updatedAt == t.updatedAt
    decreases |us|
  {
    if us != [] {
      var t1 := ApplyOne(t, us[0]).value;
      assert ApplyUpdates(t1, us[1..]) == Some(t');
      StepKeepsOtherFields(t, us[0], t1);
      UntouchedFieldsKept(t1, us[1..], t');
      forall i | 0 <= i < |us[1..]| ensures us[1..][i] == us[i + 1] { }
    }
  }

  /** A successful `update_ticket` keeps `created_at`, and its commit restamps `updated_at` with
      the current time exactly when the patch changed some column; an update that changes nothing
      leaves the row as it was. */
  lemma PatchStampsChange(t: Ticket, us: seq<FieldUpdate>, t': Ticket, now: int)
    requires ApplyUpdates(t, us) == Some(t')
    ensures Flushed(t, t', now).createdAt == t.createdAt
    ensures Flushed(t, t', now) == t <==> t' == t
    ensures t' != t ==> Flushed(t, t', now).updatedAt == now
    ensures Flushed(t, t', now).(updatedAt := t.updatedAt) == t'
  {
    UntouchedFieldsKept(t, us, t');
  }

  /** Keyword arguments apply left to right: patching with `us + vs` is patching with `us`, then `vs`. */
  lemma {:induction false} PatchComposes(t: Ticket, us: seq<FieldUpdate>, vs: seq<FieldUpdate>)
    ensures ApplyUpdates(t, us + vs) ==
      match ApplyUpdates(t, us)
      case None => None
      case Some(t1) => ApplyUpdates(t1, vs)
    decreases |us|
  {
    if us == [] {
      assert us + vs == vs;
    } else {
      assert (us + vs)[0] == us[0] && (us + vs)[1..] == us[1..] + vs;
      match ApplyOne(t, us[0])
      case None =>
      case Some(t1) => PatchComposes(t1, us[1..], vs);
    }
  }

  /** A string status is coerced to the member it names, and the last status keyword wins. */
  lemma LastStatusNameWins(t: Ticket, us: seq<FieldUpdate>, name: string, s: TicketStatus)
    requires StatusFromName(Upper(name)) == Some(s)
    requires ApplyUpdates(t, us).Some?
    ensures ApplyUpdates(t, us + [SetStatus(Named(name))]) == Some(ApplyUpdates(t, us).value.(status := s))
  {
    PatchComposes(t, us, [SetStatus(Named(name))]);
    var t1 := ApplyUpdates(t, us).value;
    assert [SetStatus(Named(name))][1..] == [];
  }

  /** `assign_ticket`'s write and `update_ticket_status`'s write are the patches of the matching keywords. */
  lemma WritesArePatches(t: Ticket, agentId: int, s: TicketStatus)
    ensures ApplyUpdates(t, [SetAssignedAgentId(Some(agentId)), SetStatus(Member(InProgress))])
            == Some(t.(assignedAgentId := Some(agentId), status := InProgress))
    ensures ApplyUpdates(t, [SetStatus(Member(s))]) == Some(t.(status := s))
  {
    var us := [SetAssignedAgentId(Some(agentId)), SetStatus(Member(InProgress))];
    var t1 := t.(assignedAgentId := Some(agentId));
    assert us[1..] == [SetStatus(Member(InProgress))] && us[1..][1..] == [];
    assert ApplyUpdates(t1.(status := InProgress), []) == Some(t1.(status := InProgress));
    assert ApplyUpdates(t1, us[1..]) == Some(t1.(status := InProgress));
    assert [SetStatus(Member(s))][1..] == [];
  }
}
