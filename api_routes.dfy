/**
  The rules inside the JSON handlers of routes/api_routes.py, as methods
  over the Store. Request parsing and response rendering are left out: a
  JSON field the handler reads with `data.get(key)` is an Option (None when
  the key is absent), and the response is a Response.

  Each handler runs inside `try: ... except Exception: rollback; 500`.
  `get_or_404` aborts by raising, and that exception is caught by the same
  clause, so a missing row yields a server error, not a 404; nothing has
  been written at that point, so the store is unchanged.
*/
module ApiRoutes {
  import opened Wrappers
  import opened Strings
  import opened Models
  import opened Database
  import opened TicketSystem
  import A = Agents
  import C = Coordinator

  /** What a handler answers: a success with its payload, a 400 with its message, or a 500. */
  datatype Response<+T> = Success(value: T) | BadRequest(message: string) | ServerError

  /** An optional ISO date field: absent or falsy, one that parses (to its instant), or one that
      `datetime.fromisoformat` rejects. */
  datatype DateField = NoDate | Date(instant: int) | BadDate

  function DateValue(d: DateField): Option<int> {
    if d.Date? then Some(d.instant) else None
  }

  // ---------------------------------------------------------------------------
  // Tickets of a project

  /** The status filter of `get_project_tickets`: a truthy value naming a member after
      upper-casing restricts the query; anything else is ignored. */
  function RouteFilter(statusFilter: Option<string>): Option<TicketStatus> {
    if Truthy(statusFilter) then StatusFromName(Upper(statusFilter.value)) else None
  }

  /** `get_project_tickets`: the project's tickets in id order, each with its assignee. */
  method GetProjectTickets(db: Store, projectId: int, statusFilter: Option<string>) returns (r: seq<TicketInfo>)
    ensures r == Listing(db.tickets, db.agents, projectId, RouteFilter(statusFilter), |db.tickets|)
  {
    var filter: Option<TicketStatus> := None;
    if Truthy(statusFilter) && StatusFromName(Upper(statusFilter.value)).Some? {
      filter := StatusFromName(Upper(statusFilter.value));
    }
    r := [];
    var i := 0;
    while i < |db.tickets|
      invariant 0 <= i <= |db.tickets|
      invariant r == Listing(db.tickets, db.agents, projectId, filter, i)
    {
      if Selects(db.tickets[i], projectId, filter) {
        r := r + [InfoOf(db.tickets, db.agents, i + 1)];
      }
      i := i + 1;
    }
  }

  /** `create_project_ticket`. The checks run in this order: the project must exist, the title
      must be truthy (400), the priority, "MEDIUM" when absent, must name a member after
      upper-casing (the lookup raises: 500), and a given due date must parse (400). The ticket
      is OPEN, unassigned, and its description is "" when none is given. */
  method CreateProjectTicket(db: Store, projectId: int, title: Option<string>, description: Option<string>,
                             priority: Option<string>, dueDate: DateField, parentTicketId: Option<int>)
    returns (r: Response<nat>)
    modifies db`tickets
    ensures !r.Success? ==> db.tickets == old(db.tickets)
    ensures !(1 <= projectId <= |db.projects|) ==> r == ServerError
    ensures 1 <= projectId <= |db.projects| && !Truthy(title) ==> r == BadRequest("Ticket title is required")
    ensures 1 <= projectId <= |db.projects| && Truthy(title) && PriorityFromName(Upper(priority.GetOr("MEDIUM"))).None?
      ==> r == ServerError
    ensures (1 <= projectId <= |db.projects| && Truthy(title) && PriorityFromName(Upper(priority.GetOr("MEDIUM"))).Some?
             && dueDate.BadDate?) ==> r == BadRequest("Invalid date format for due_date")
    ensures r.Success? <==>
      1 <= projectId <= |db.projects| && Truthy(title) && PriorityFromName(Upper(priority.GetOr("MEDIUM"))).Some?
      && !dueDate.BadDate?
    ensures r.Success? ==>
      && db.tickets == old(db.tickets) + [NewTicket(title.value, projectId, Some(description.GetOr("")), Some(Open),
                                                   PriorityFromName(Upper(priority.GetOr("MEDIUM"))),
                                                   DateValue(dueDate), None, parentTicketId, db.clock)]
      && r.value == |db.tickets|
  {
    if Lookup(db.projects, projectId).None? {
      return ServerError;
    }
    if !Truthy(title) {
      return BadRequest("Ticket title is required");
    }
    var p := PriorityFromName(Upper(priority.GetOr("MEDIUM")));
    if p.None? {
      return ServerError;
    }
    if dueDate.BadDate? {
      return BadRequest("Invalid date format for due_date");
    }
    var t := NewTicket(title.value, projectId, Some(description.GetOr("")), Some(Open), p,
                       DateValue(dueDate), None, parentTicketId, db.clock);
    db.tickets := db.tickets + [t];
    r := Success(|db.tickets|);
  }

  // ---------------------------------------------------------------------------
  // Checkpoints

  /** The requested ticket ids the checkpoint handler links, in request order: those naming a
      stored ticket of the project. */
  function Admitted(ids: seq<int>, tickets: seq<Ticket>, projectId: int): seq<int> {
    if ids == [] then []
    else
      var id := ids[|ids| - 1];
      Admitted(ids[..|ids| - 1], tickets, projectId)
      + (if 1 <= id <= |tickets| && tickets[id - 1].projectId == projectId then [id] else [])
  }

  /** `create_project_checkpoint`: the project must exist and the name be truthy (400); a given
      milestone date that does not parse raises (500). A requested id is linked when it names a
      ticket of this project and skipped otherwise. An id linked twice violates the association's
      primary key at commit (500). The new checkpoint is not completed. */
  method CreateProjectCheckpoint(db: Store, projectId: int, name: Option<string>, description: Option<string>,
                                 milestoneDate: DateField, relatedTicketIds: seq<int>) returns (r: Response<nat>)
    requires db.Valid()
    modifies db`checkpoints
    ensures db.Valid()
    ensures !r.Success? ==> db.checkpoints == old(db.checkpoints)
    ensures !(1 <= projectId <= |db.projects|) ==> r == ServerError
    ensures 1 <= projectId <= |db.projects| && !Truthy(name) ==> r == BadRequest("Checkpoint name is required")
    ensures r.Success? <==>
      1 <= projectId <= |db.projects| && Truthy(name) && !milestoneDate.BadDate?
      && NoDuplicates(Admitted(relatedTicketIds, db.tickets, projectId))
    ensures r.Success? ==>
      && db.checkpoints == old(db.checkpoints) + [Checkpoint(name.value, Some(description.GetOr("")),
                                                             DateValue(milestoneDate), false, projectId,
                                                             Admitted(relatedTicketIds, db.tickets, projectId))]
      && r.value == |db.checkpoints|
    ensures r.BadRequest? ==> r == BadRequest("Checkpoint name is required")
  {
    if Lookup(db.projects, projectId).None? {
      return ServerError;
    }
    if !Truthy(name) {
      return BadRequest("Checkpoint name is required");
    }
    if milestoneDate.BadDate? {
      return ServerError;
    }
    var linked: seq<int> := [];
    var i := 0;
    while i < |relatedTicketIds|
      invariant 0 <= i <= |relatedTicketIds|
      invariant linked == Admitted(relatedTicketIds[..i], db.tickets, projectId)
    {
      assert relatedTicketIds[..i + 1][..i] == relatedTicketIds[..i];
      var ticketId := relatedTicketIds[i];
      var ticket := Lookup(db.tickets, ticketId);
      if ticket.Some? && ticket.value.projectId == projectId {
        linked := linked + [ticketId];
      }
      i := i + 1;
    }
    assert relatedTicketIds[..i] == relatedTicketIds;
    if !NoDuplicates(linked) {
      return ServerError;
    }
    var cp := Checkpoint(name.value, Some(description.GetOr("")), DateValue(milestoneDate), false, projectId, linked);
    db.checkpoints := db.checkpoints + [cp];
    assert db.checkpoints[|db.checkpoints| - 1] == cp;
    assert forall k :: 0 <= k < |old(db.checkpoints)| ==> db.checkpoints[k] == old(db.checkpoints)[k];
    r := Success(|db.checkpoints|);
  }

  /** `update_checkpoint_status`: the checkpoint must exist; a request without the "completed" key
      is refused (400); otherwise only that checkpoint's flag changes. */
  method UpdateCheckpointStatus(db: Store, checkpointId: int, completed: Option<bool>) returns (r: Response<bool>)
    modifies db`checkpoints
    ensures !(1 <= checkpointId <= |old(db.checkpoints)|) ==> r == ServerError && db.checkpoints == old(db.checkpoints)
    ensures 1 <= checkpointId <= |old(db.checkpoints)| && completed.None? ==>
      r == BadRequest("Completed status is required") && db.checkpoints == old(db.checkpoints)
    ensures 1 <= checkpointId <= |old(db.checkpoints)| && completed.Some? ==>
      && r == Success(completed.value)
      && db.checkpoints == old(db.checkpoints)[checkpointId - 1 :=
           old(db.checkpoints)[checkpointId - 1].(completed := completed.value)]
  {
    var cp := Lookup(db.checkpoints, checkpointId);
    if cp.None? {
      return ServerError;
    }
    if completed.None? {
      return BadRequest("Completed status is required");
    }
    db.checkpoints := db.checkpoints[checkpointId - 1 := cp.value.(completed := completed.value)];
    r := Success(completed.value);
  }

  // ---------------------------------------------------------------------------
  // Ticket assignment and status

  /** The assign route's write: the assignee is set, and only an OPEN ticket moves to IN_PROGRESS. */
  function RouteAssigned(t: Ticket, agentId: int): (t': Ticket)
    ensures t'.assignedAgentId == Some(agentId)
    ensures t.status == Open ==> t'.status == InProgress
    ensures t.status != Open ==> t'.status == t.status
    ensures t' == t.(assignedAgentId := t'.assignedAgentId, status := t'.status)
  {
    t.(assignedAgentId := Some(agentId), status := if t.status == Open then InProgress else t.status)
  }

  /** `assign_ticket` (the route): the ticket must exist, the agent id be truthy (400) and name a
      stored agent; the ticket's new status is returned. */
  method AssignTicket(db: Store, ticketId: int, agentId: Option<int>) returns (r: Response<TicketStatus>)
    modifies db`tickets
    ensures !r.Success? ==> db.tickets == old(db.tickets)
    ensures !(1 <= ticketId <= |old(db.tickets)|) ==> r == ServerError
    ensures 1 <= ticketId <= |old(db.tickets)| && (agentId.None? || agentId.value == 0) ==>
      r == BadRequest("Agent ID is required")
    ensures r.Success? <==>
      1 <= ticketId <= |old(db.tickets)| && agentId.Some? && agentId.value != 0 && 1 <= agentId.value <= |db.agents|
    ensures r.Success? ==>
      && db.tickets == old(db.tickets)[ticketId - 1 :=
           Flushed(old(db.tickets)[ticketId - 1], RouteAssigned(old(db.tickets)[ticketId - 1], agentId.value), db.clock)]
      && r.value == db.tickets[ticketId - 1].status
  {
    var ticket := Lookup(db.tickets, ticketId);
    if ticket.None? {
      return ServerError;
    }
    if agentId.None? || agentId.value == 0 {
      return BadRequest("Agent ID is required");
    }
    var agent := Lookup(db.agents, agentId.value);
    if agent.None? {
      return ServerError;
    }
    var t := ticket.value.(assignedAgentId := Some(agentId.value));
    if t.status == Open {
      t := t.(status := InProgress);
    }
    db.tickets := db.tickets[ticketId - 1 := Flushed(ticket.value, t, db.clock)];
    r := Success(t.status);
  }

  /** `update_ticket_status` (the route): the ticket must exist; the status must be truthy (400) and
      name a member after upper-casing (400, quoting the upper-cased text); otherwise only that
      ticket's status changes. */
  method UpdateTicketStatus(db: Store, ticketId: int, status: Option<string>) returns (r: Response<TicketStatus>)
    modifies db`tickets
    ensures !r.Success? ==> db.tickets == old(db.tickets)
    ensures !(1 <= ticketId <= |old(db.tickets)|) ==> r == ServerError
    ensures 1 <= ticketId <= |old(db.tickets)| && !Truthy(status) ==> r == BadRequest("Status is required")
    ensures 1 <= ticketId <= |old(db.tickets)| && Truthy(status) && StatusFromName(Upper(status.value)).None? ==>
      r == BadRequest("Invalid status: " + Upper(status.value))
    ensures r.Success? <==>
      1 <= ticketId <= |old(db.tickets)| && Truthy(status) && StatusFromName(Upper(status.value)).Some?
    ensures r.Success? ==>
      && r.value == StatusFromName(Upper(status.value)).value
      && db.tickets == old(db.tickets)[ticketId - 1 :=
           Flushed(old(db.tickets)[ticketId - 1], old(db.tickets)[ticketId - 1].(status := r.value), db.clock)]
  {
    var ticket := Lookup(db.tickets, ticketId);
    if ticket.None? {
      return ServerError;
    }
    if !Truthy(status) {
      return BadRequest("Status is required");
    }
    var s := Upper(status.value);
    var member := StatusFromName(s);
    if member.None? {
      return BadRequest("Invalid status: " + s);
    }
    db.tickets := db.tickets[ticketId - 1 := Flushed(ticket.value, ticket.value.(status := member.value), db.clock)];
    r := Success(member.value);
  }

  // ---------------------------------------------------------------------------
  // Conversation messages

  /** The title rule of `add_conversation_message`: a falsy title, or one starting with
      "Conversation", becomes the message's first 30 characters, with "..." appended when the
      message is longer; any other title is kept. */
  function TitleAfter(title: Option<string>, content: string): Option<string> {
    if !Truthy(title) || StartsWith(title.value, "Conversation") then
      Some(Take(content, 30) + (if |content| > 30 then "..." else ""))
    else title
  }

  /** What `add_conversation_message` answers on success: the coordinator's reply and the name
      of the agent that gave it. */
  datatype Posted = Posted(response: string, agentName: string)

  /** The conversation names its own project (`if project_id:`, so 0 counts as none). */
  predicate HasOwnProject(c: Conversation) {
    c.projectId.Some? && c.projectId.value != 0
  }

  /** The project whose coordinator handles the message: the conversation's own, otherwise the
      first project, which has id 1 whether it was there already or is created for the purpose. */
  function TurnProject(c: Conversation): int {
    if HasOwnProject(c) then c.projectId.value else 1
  }

  /** The project created for a conversation without one when the project table is empty. */
  const GeneralProject := Project("General", Some("General conversations"))

  /** The project table once the handler has found or created the project to work in. */
  function ProjectsFor(c: Conversation, projects: seq<Project>): seq<Project> {
    if !HasOwnProject(c) && projects == [] then [GeneralProject] else projects
  }

  /** The conversation attached to the project it is handled in, at instant `now`. A conversation
      without its own project gets one, a change of its row, so `onupdate` stamps it now. */
  function AttachedTo(c: Conversation, now: int): Conversation {
    if HasOwnProject(c) then c else c.(projectId := Some(TurnProject(c)), updatedAt := now)
  }

  /** The agent table as `AgentCoordinator` loads it: the six defaults when it was empty. */
  function AgentsFor(agents: seq<AgentRecord>): seq<AgentRecord> {
    if agents == [] then C.DefaultRows() else agents
  }

  /** The row of a loaded agent table whose agent becomes the coordinator: the last COORDINATOR row. */
  function CoordinatorRow(rows: seq<AgentRecord>): Option<nat> {
    C.LastWithRole(RolesOf(rows), AgentRole.Coordinator)
  }

  /** The coordinator's turn runs: an own project exists, and some row of the loaded agent table is
      a COORDINATOR. Otherwise `AgentCoordinator(project_id)` or `process_user_message` raises. */
  predicate TurnRuns(c: Conversation, projects: seq<Project>, rows: seq<AgentRecord>) {
    && (HasOwnProject(c) ==> 1 <= c.projectId.value <= |projects|)
    && CoordinatorRow(rows).Some?
  }

  /** The two messages stored for a turn: the user's, then the coordinator's reply. */
  function TurnMessages(content: string, imagePath: Option<string>, reply: string, coordinatorId: int,
                        conversationId: int): seq<Message> {
    [Message(content, true, Truthy(imagePath), imagePath, None, conversationId),
     Message(reply, false, false, None, Some(coordinatorId), conversationId)]
  }

  /** The ticket the turn files: one when the message asks for it and a PLANNER agent is loaded. */
  function TurnTickets(content: string, rows: seq<AgentRecord>, projectId: int, now: int): seq<Ticket> {
    if C.AsksForTicket(content) && C.FirstWithRole(RolesOf(rows), AgentRole.Planner).Some?
    then [C.RequestedTicket(content, projectId, now)]
    else []
  }

  /** The project lookup of `add_conversation_message`: the conversation's own project id, or the
      first project's, creating "General" (committed) when the table is empty. */
  method ProjectForTurn(db: Store, c: Conversation) returns (projectId: int)
    modifies db`projects
    ensures projectId == TurnProject(c) && db.projects == ProjectsFor(c, old(db.projects))
    ensures !HasOwnProject(c) ==> 1 <= projectId <= |db.projects|
  {
    if HasOwnProject(c) {
      projectId := c.projectId.value;
    } else {
      if db.projects == [] {
        var general := db.AddProject(GeneralProject);
      }
      projectId := 1;
    }
  }

  /** `process_user_message` on a loaded coordinator, and the name the handler looks up for the
      agent that answered: an error without a coordinator; otherwise the reply, the coordinator's
      name, the two stored messages and any requested ticket. */
  method CoordinatorTurn(db: Store, coordinator: C.AgentCoordinator, conversationId: int, content: string,
                         imagePath: Option<string>) returns (r: Result<Posted>)
    requires coordinator.Valid() && coordinator.db == db
    requires C.LoadedFrom(coordinator.agents, coordinator.coordinatorAgent, db.agents)
    modifies db`messages, db`tickets, coordinator.coordinatorAgent, coordinator.Planner()
    ensures coordinator.coordinatorAgent == null ==>
      r.Err? && db.messages == old(db.messages) && db.tickets == old(db.tickets)
    ensures coordinator.coordinatorAgent != null ==>
      && r.Ok? && r.value.agentName == coordinator.coordinatorAgent.name && A.RepliesTo(r.value.response, content, imagePath)
      && db.messages == old(db.messages) + TurnMessages(content, imagePath, r.value.response,
                                                        coordinator.coordinatorAgent.agentId, conversationId)
      && db.tickets == old(db.tickets) +
           (if coordinator.PlansTicket(content) then [C.RequestedTicket(content, coordinator.projectId, db.clock)] else [])
  {
    var turn := coordinator.ProcessUserMessage(content, conversationId, imagePath);
    if turn.Err? {
      return Err(turn.error);
    }
    var agentName := "Coordinator";
    var agent := Lookup(db.agents, coordinator.coordinatorAgent.agentId);
    C.LoadedCoordinatorIsAgent(coordinator.agents, coordinator.coordinatorAgent, db.agents);
    assert agent == Some(db.agents[coordinator.coordinatorAgent.agentId - 1]);
    if agent.Some? {
      agentName := agent.value.name;
    }
    r := Ok(Posted(turn.value, agentName));
  }

  /** What a coordinator loaded from `rows` does, read off the rows: it exists exactly when some
      row is a COORDINATOR, it is then the agent of the last such row, and it files a ticket for
      a message exactly when the message asks for one and some row is a PLANNER. */
  lemma LoadedTurn(coordinator: C.AgentCoordinator, rows: seq<AgentRecord>, content: string)
    requires C.LoadedFrom(coordinator.agents, coordinator.coordinatorAgent, rows)
    ensures coordinator.coordinatorAgent == null <==> C.LastWithRole(RolesOf(rows), AgentRole.Coordinator).None?
    ensures coordinator.coordinatorAgent != null ==>
      var k := C.LastWithRole(RolesOf(rows), AgentRole.Coordinator).value;
      coordinator.coordinatorAgent.agentId == k + 1 && coordinator.coordinatorAgent.name == rows[k].name
    ensures coordinator.PlansTicket(content) <==>
      C.AsksForTicket(content) && C.FirstWithRole(RolesOf(rows), AgentRole.Planner).Some?
  {
    C.LoadedRoles(coordinator.agents, coordinator.coordinatorAgent, rows);
    match C.LastWithRole(RolesOf(rows), AgentRole.Coordinator)
    case None =>
    case Some(k) => assert C.InstanceOf(coordinator.agents[k], k + 1, rows[k]);
  }

  /** The start of the coordinator step of `add_conversation_message`: load the project's
      coordinator (a missing project raises before anything is written, an empty agent table is
      seeded) and attach the conversation to the project. */
  method LoadForTurn(db: Store, conversationId: int, c: Conversation, projectId: int, content: string)
    returns (r: Result<C.AgentCoordinator>)
    requires 1 <= conversationId <= |db.conversations| && db.conversations[conversationId - 1] == c
    requires projectId == TurnProject(c)
    modifies db`conversations, db`agents
    ensures !(1 <= projectId <= |db.projects|) ==> r.Err? && unchanged(db)
    ensures 1 <= projectId <= |db.projects| ==>
      && r.Ok? && r.value.Valid() && r.value.db == db && r.value.projectId == projectId
      && db.agents == AgentsFor(old(db.agents))
      && db.conversations == old(db.conversations)[conversationId - 1 := AttachedTo(c, db.clock)]
      && C.LoadedFrom(r.value.agents, r.value.coordinatorAgent, db.agents)
      && (forall i :: 0 <= i < |r.value.agents| ==> fresh(r.value.agents[i]))
      && (r.value.coordinatorAgent == null <==> CoordinatorRow(db.agents).None?)
      && (r.value.coordinatorAgent != null ==>
            r.value.coordinatorAgent.agentId == CoordinatorRow(db.agents).value + 1)
      && (r.value.PlansTicket(content) <==>
            C.AsksForTicket(content) && C.FirstWithRole(RolesOf(db.agents), AgentRole.Planner).Some?)
  {
    r := C.NewCoordinator(db, projectId);
    if r.Err? {
      return;
    }
    if !HasOwnProject(c) {
      db.conversations := db.conversations[conversationId - 1 := AttachedTo(c, db.clock)];
    }
    LoadedTurn(r.value, db.agents, content);
  }

  /** The coordinator step of `add_conversation_message` once the project id is known: load the
      project's coordinator and attach the conversation (LoadForTurn), then have the coordinator
      handle the message, answering as CoordinatorTurn states. */
  method RunTurn(db: Store, conversationId: int, c: Conversation, projectId: int, content: string,
                 imagePath: Option<string>) returns (r: Result<Posted>)
    requires 1 <= conversationId <= |db.conversations| && db.conversations[conversationId - 1] == c
    requires projectId == TurnProject(c)
    modifies db`conversations, db`agents, db`messages, db`tickets
    ensures !(1 <= projectId <= |db.projects|) ==> r.Err? && unchanged(db)
    ensures 1 <= projectId <= |db.projects| ==>
      && db.agents == AgentsFor(old(db.agents))
      && db.conversations == old(db.conversations)[conversationId - 1 := AttachedTo(c, db.clock)]
      && (r.Ok? <==> CoordinatorRow(db.agents).Some?)
      && (r.Err? ==> db.messages == old(db.messages) && db.tickets == old(db.tickets))
    ensures r.Ok? ==>
      var k := CoordinatorRow(db.agents).value;
      && r.value.agentName == db.agents[k].name
      && A.RepliesTo(r.value.response, content, imagePath)
      && db.messages == old(db.messages) + TurnMessages(content, imagePath, r.value.response, k + 1, conversationId)
      && db.tickets == old(db.tickets) + TurnTickets(content, db.agents, projectId, db.clock)
  {
    var made := LoadForTurn(db, conversationId, c, projectId, content);
    if made.Err? {
      return Err(made.error);
    }
    var coordinator := made.value;
    coordinator.PlannerIsNotCoordinator();
    ghost var rows := db.agents;
    r := CoordinatorTurn(db, coordinator, conversationId, content, imagePath);
    assert db.agents == rows;
  }

  /** `add_conversation_message`. The conversation must exist (500), and a request with neither
      message text nor a saved image is refused (400) before anything is written. The handler then
      finds the project: the conversation's own, or the first one, created as "General" when there
      is none; the conversation is attached to it at once. The coordinator of that project is
      loaded (seeding an empty agent table) and handles the message. A missing own project or a
      missing COORDINATOR agent raises: 500, with the project, agent seeding and attachment already
      committed and nothing else written. Otherwise the two messages and any requested ticket are
      stored, and the conversation is stamped now and retitled by TitleAfter. */
  method AddConversationMessage(db: Store, conversationId: int, content: string, imagePath: Option<string>)
    returns (r: Response<Posted>)
    modifies db`conversations, db`projects, db`agents, db`messages, db`tickets
    ensures !(1 <= conversationId <= |old(db.conversations)|) ==> r == ServerError && unchanged(db)
    ensures 1 <= conversationId <= |old(db.conversations)| && content == "" && !Truthy(imagePath) ==>
      r == BadRequest("Message content or image is required") && unchanged(db)
    ensures 1 <= conversationId <= |old(db.conversations)| && (content != "" || Truthy(imagePath)) ==>
      var c := old(db.conversations)[conversationId - 1];
      if HasOwnProject(c) && !(1 <= c.projectId.value <= |old(db.projects)|) then
        r == ServerError && unchanged(db)
      else
        && db.projects == ProjectsFor(c, old(db.projects))
        && db.agents == AgentsFor(old(db.agents))
        && (r.Success? <==> CoordinatorRow(db.agents).Some?)
        && (!r.Success? ==>
              && r == ServerError
              && db.conversations == old(db.conversations)[conversationId - 1 := AttachedTo(c, db.clock)]
              && db.messages == old(db.messages) && db.tickets == old(db.tickets))
    ensures r.Success? <==>
      && 1 <= conversationId <= |old(db.conversations)| && (content != "" || Truthy(imagePath))
      && TurnRuns(old(db.conversations)[conversationId - 1], old(db.projects), db.agents)
    ensures r.Success? ==>
      var c := old(db.conversations)[conversationId - 1];
      var k := CoordinatorRow(db.agents).value;
      && r.value.agentName == db.agents[k].name
      && A.RepliesTo(r.value.response, content, imagePath)
      && db.messages == old(db.messages) + TurnMessages(content, imagePath, r.value.response, k + 1, conversationId)
      && db.tickets == old(db.tickets) + TurnTickets(content, db.agents, TurnProject(c), db.clock)
      && db.conversations == old(db.conversations)[conversationId - 1 :=
           AttachedTo(c, db.clock).(title := TitleAfter(c.title, content), updatedAt := db.clock)]
  {
    var conversation := Lookup(db.conversations, conversationId);
    if conversation.None? {
      return ServerError;
    }
    if content == "" && !Truthy(imagePath) {
      return BadRequest("Message content or image is required");
    }
    var c := conversation.value;
    var projectId := ProjectForTurn(db, c);
    var turn := RunTurn(db, conversationId, c, projectId, content, imagePath);
    if turn.Err? {
      return ServerError;
    }
    Retitle(db, conversationId, content);
    r := Success(turn.value);
  }

  /** The end of a turn: the conversation is stamped now and retitled by TitleAfter. */
  method Retitle(db: Store, conversationId: int, content: string)
    requires 1 <= conversationId <= |db.conversations|
    modifies db`conversations
    ensures db.conversations == old(db.conversations)[conversationId - 1 :=
      old(db.conversations)[conversationId - 1].(title := TitleAfter(old(db.conversations)[conversationId - 1].title, content), updatedAt := db.clock)]
  {
    var c := db.conversations[conversationId - 1];
    c := c.(title := TitleAfter(c.title, content), updatedAt := db.clock);
    db.conversations := db.conversations[conversationId - 1 := c];
  }

  // ---------------------------------------------------------------------------
  // Properties

  /** Attaching sets the project the turn runs in and keeps the title. It changes the row exactly
      when the conversation had no project of its own, and a changed row carries the new stamp. */
  lemma AttachStampsChange(c: Conversation, now: int)
    ensures AttachedTo(c, now).projectId == Some(TurnProject(c)) && AttachedTo(c, now).title == c.title
    ensures AttachedTo(c, now) == c <==> HasOwnProject(c)
    ensures AttachedTo(c, now) != c ==> AttachedTo(c, now).updatedAt == now
  {
  }

  /** A filter that names no member is ignored, so the whole project is listed, where the ticket
      manager's `get_all_tickets` raises for the same text; a valid one restricts the listing. */
  lemma InvalidFilterIgnored(statusFilter: Option<string>)
    ensures Truthy(statusFilter) && StatusFromName(Upper(statusFilter.value)).None? ==> RouteFilter(statusFilter) == None
    ensures !Truthy(statusFilter) ==> RouteFilter(statusFilter) == None
    ensures RouteFilter(statusFilter).Some? ==>
      Truthy(statusFilter) && StatusName(RouteFilter(statusFilter).value) == Upper(statusFilter.value)
  {
  }

  /** A linked id names a stored ticket of the project and was requested; every requested id that
      names such a ticket is linked. */
  lemma {:induction false} AdmittedExactly(ids: seq<int>, tickets: seq<Ticket>, projectId: int)
    ensures forall x :: x in Admitted(ids, tickets, projectId) <==>
      x in ids && 1 <= x <= |tickets| && tickets[x - 1].projectId == projectId
  {
    if ids != [] {
      var init := ids[..|ids| - 1];
      AdmittedExactly(init, tickets, projectId);
      assert ids == init + [ids[|ids| - 1]];
    }
  }

  /** Requested ids without repetition are linked without repetition. */
  lemma {:induction false} AdmittedKeepsDistinct(ids: seq<int>, tickets: seq<Ticket>, projectId: int)
    requires NoDuplicates(ids)
    ensures NoDuplicates(Admitted(ids, tickets, projectId))
  {
    if ids != [] {
      var init := ids[..|ids| - 1];
      var last := ids[|ids| - 1];
      assert NoDuplicates(init) by {
        forall i, j | 0 <= i < j < |init| ensures init[i] != init[j] {
          assert init[i] == ids[i] && init[j] == ids[j];
        }
      }
      AdmittedKeepsDistinct(init, tickets, projectId);
      AdmittedExactly(init, tickets, projectId);
      assert last !in init by {
        forall i | 0 <= i < |init| ensures init[i] != last {
          assert init[i] == ids[i];
        }
      }
      var a := Admitted(init, tickets, projectId);
      var s := Admitted(ids, tickets, projectId);
      forall i, j | 0 <= i < j < |s| ensures s[i] != s[j] {
        if j >= |a| {
          assert s[j] == last && s[i] == a[i];
          assert a[i] in a;
        } else {
          assert s[i] == a[i] && s[j] == a[j];
        }
      }
    }
  }

  /** The route and the ticket manager assign differently: the route leaves every status but OPEN
      alone (a ticket under review stays under review), the manager forces IN_PROGRESS. */
  lemma AssignmentRulesDiffer(t: Ticket, agentId: int)
    requires t.status != Open && t.status != InProgress
    ensures RouteAssigned(t, agentId).status == t.status
    ensures RouteAssigned(t, agentId) != t.(assignedAgentId := Some(agentId), status := InProgress)
  {
  }

  /** A title the user chose (truthy and not starting with "Conversation") survives every message. */
  lemma ChosenTitleKept(title: string, content: string)
    requires title != "" && !StartsWith(title, "Conversation")
    ensures TitleAfter(Some(title), content) == Some(title)
  {
  }

  /** A derived title is the message's first 30 characters, followed by "..." exactly when the
      message is longer than 30 characters; so it is the whole message when that is short. */
  lemma DerivedTitleShape(title: Option<string>, content: string)
    requires !Truthy(title) || StartsWith(title.value, "Conversation")
    ensures var t := TitleAfter(title, content).value;
      && t[..if |content| <= 30 then |content| else 30] == Take(content, 30)
      && (|content| <= 30 ==> t == content)
      && (|content| > 30 <==> |t| == 33)
      && (|content| > 30 ==> t[30..] == "..." && t[..30] == content[..30])
  {
  }
}
