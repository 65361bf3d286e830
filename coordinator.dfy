/**
  agent_system/coordinator.py: the AgentCoordinator of one project. It loads
  one Agent per stored agent row, seeding six defaults into an empty table
  first, and routes user messages through the coordinator agent.

  `self.agents` is a dict keyed by agent id, filled from `Agent.query.all()`
  in id order. Ids run 1..n without gaps (rows are never deleted), so the
  dict is the sequence of its values: the agent for id i sits at position
  i - 1, and `values()` iterates the sequence in order. The dict and the
  coordinator are set once, while loading, so both are `const` here.
*/
module Coordinator {
  import opened Wrappers
  import opened Strings
  import opened Models
  import opened Database
  import opened OllamaClient
  import opened Agents
  import opened TicketSystem

  // ---------------------------------------------------------------------------
  // Role search

  function AgentRoles(agents: seq<Agent>): (rs: seq<AgentRole>)
    ensures |rs| == |agents| && forall i :: 0 <= i < |agents| ==> rs[i] == agents[i].role
  {
    seq(|agents|, i requires 0 <= i < |agents| => agents[i].role)
  }

  /** The position of the first `role` in `roles`. */
  function FirstWithRole(roles: seq<AgentRole>, role: AgentRole): (r: Option<nat>)
    ensures r.None? <==> forall i :: 0 <= i < |roles| ==> roles[i] != role
    ensures r.Some? ==> r.value < |roles| && roles[r.value] == role
                        && forall j :: 0 <= j < r.value ==> roles[j] != role
  {
    if roles == [] then None
    else if roles[0] == role then Some(0)
    else
      match FirstWithRole(roles[1..], role)
      case None => None
      case Some(k) => Some(k + 1)
  }

  /** The position of the last `role` in `roles`. */
  function LastWithRole(roles: seq<AgentRole>, role: AgentRole): (r: Option<nat>)
    ensures r.None? <==> forall i :: 0 <= i < |roles| ==> roles[i] != role
    ensures r.Some? ==> r.value < |roles| && roles[r.value] == role
                        && forall j :: r.value < j < |roles| ==> roles[j] != role
  {
    if roles == [] then None
    else if roles[|roles| - 1] == role then Some(|roles| - 1)
    else LastWithRole(roles[..|roles| - 1], role)
  }

  // ---------------------------------------------------------------------------
  // Default agents

  /** The names and roles `_create_default_agents` seeds. */
  const DefaultTeam: seq<(string, AgentRole)> :=
    [("Alice", Coordinator), ("Bob", Planner), ("Charlie", Researcher),
     ("Diana", Developer), ("Eve", Tester), ("Frank", Reviewer)]

  const VisionModel := "llama3:8b-vision"

  function DefaultRow(member: (string, AgentRole)): AgentRecord {
    AgentRecord(member.0, member.1, VisionModel, Some("Default " + RoleValue(member.1) + " agent"))
  }

  /** The rows `_create_default_agents` adds, in list order. */
  function DefaultRows(): (rows: seq<AgentRecord>)
    ensures |rows| == |DefaultTeam| && forall i :: 0 <= i < |DefaultTeam| ==> rows[i] == DefaultRow(DefaultTeam[i])
  {
    seq(|DefaultTeam|, i requires 0 <= i < |DefaultTeam| => DefaultRow(DefaultTeam[i]))
  }

  /** `_create_default_agents`: the six default rows added in list order, committed together. */
  method CreateDefaultAgents(db: Store)
    modifies db`agents
    ensures db.agents == old(db.agents) + DefaultRows()
  {
    var i := 0;
    while i < |DefaultTeam|
      invariant 0 <= i <= |DefaultTeam|
      invariant db.agents == old(db.agents) + DefaultRows()[..i]
    {
      assert DefaultRows()[..i + 1] == DefaultRows()[..i] + [DefaultRow(DefaultTeam[i])];
      db.agents := db.agents + [DefaultRow(DefaultTeam[i])];
      i := i + 1;
    }
  }

  /** `_create_agent_instance`: the agent of the row's role class, with the row's id, name and
      model. Every role has a class, so the unknown-role error cannot arise. */
  method CreateAgentInstance(id: int, row: AgentRecord) returns (a: Agent)
    ensures fresh(a) && InstanceOf(a, id, row) && a.context == []
  {
    a := new Agent(id, row.name, row.role, row.model);
  }

  /** `_create_agent_instance` over every row, in id order; the coordinator is the instance of
      the last COORDINATOR row, since each one overwrites the previous. */
  method LoadAgents(rows: seq<AgentRecord>) returns (loaded: seq<Agent>, coordinator: Agent?)
    ensures LoadedFrom(loaded, coordinator, rows)
    ensures forall i :: 0 <= i < |loaded| ==> fresh(loaded[i]) && loaded[i].context == []
  {
    var roles := RolesOf(rows);
    loaded, coordinator := [], null;
    ghost var last: Option<nat> := None;
    var i := 0;
    while i < |rows|
      invariant 0 <= i <= |rows|
      invariant |loaded| == i
      invariant forall k :: 0 <= k < i ==> InstanceOf(loaded[k], k + 1, rows[k])
      invariant forall k :: 0 <= k < i ==> fresh(loaded[k]) && loaded[k].context == []
      invariant last == LastWithRole(roles[..i], Coordinator)
      invariant last.None? ==> coordinator == null
      invariant last.Some? ==> last.value < i && coordinator == loaded[last.value]
    {
      assert roles[..i + 1][..i] == roles[..i];
      var a := CreateAgentInstance(i + 1, rows[i]);
      loaded := loaded + [a];
      if rows[i].role == Coordinator {
        coordinator := a;
        last := Some(i);
      }
      i := i + 1;
    }
    assert roles[..i] == roles;
  }

  /** `a` is the instance built for the row with id `id`. */
  predicate InstanceOf(a: Agent, id: int, row: AgentRecord) {
    && a.agentId == id && a.name == row.name && a.role == row.role && a.model == row.model
  }

  /** `loaded` and `coordinator` are what `_load_agents` builds from `rows`. */
  predicate LoadedFrom(loaded: seq<Agent>, coordinator: Agent?, rows: seq<AgentRecord>) {
    && |loaded| == |rows|
    && (forall i :: 0 <= i < |rows| ==> InstanceOf(loaded[i], i + 1, rows[i]))
    && coordinator == match LastWithRole(RolesOf(rows), Coordinator) case None => null case Some(k) => loaded[k]
  }

  /** `"new task"` or `"create ticket"` occurs in the lower-cased message. */
  predicate AsksForTicket(message: string) {
    Contains(Lower(message), "new task") || Contains(Lower(message), "create ticket")
  }

  function PlanningPrompt(message: string): string {
    "Based on this user request, create a detailed ticket specification:\n\nUser request: " + message
    + "\n\nInclude a title, description, and priority level."
  }

  /** What consulting the planner about `message` adds to its context. */
  function PlannerExchange(message: string): seq<ChatMessage> {
    Exchange(PlanningPrompt(message), KeywordReply(PlanningPrompt(message)))
  }

  /** The ticket `_analyze_and_update_project` creates for a request. */
  function RequestedTicket(message: string, projectId: int, now: int): Ticket {
    NewTicket(Take(message, 100), projectId, Some(message), Some(Open), Some(Medium), None, None, None, now)
  }

  /** The ticket list after `add_ticket_to_checkpoint` links `ticketId` to checkpoint `checkpointId`:
      appended unless already linked. */
  function Link(cps: seq<Checkpoint>, checkpointId: int, ticketId: int): seq<Checkpoint>
    requires 1 <= checkpointId <= |cps|
  {
    var cp := cps[checkpointId - 1];
    if ticketId in cp.relatedTickets then cps
    else cps[checkpointId - 1 := cp.(relatedTickets := cp.relatedTickets + [ticketId])]
  }

  class AgentCoordinator {
    const projectId: int
    const db: Store
    const ticketManager: TicketManager
    const agents: seq<Agent>
    const coordinatorAgent: Agent?

    /** The ticket manager works on the same store and project; the agent at position i has id
        i + 1; the coordinator, if any, is one of the agents and has the COORDINATOR role. */
    predicate Valid() {
      && ticketManager.db == db && ticketManager.projectId == projectId
      && (forall i :: 0 <= i < |agents| ==> agents[i].agentId == i + 1)
      && (coordinatorAgent != null ==> coordinatorAgent in agents && coordinatorAgent.role == Coordinator)
    }

    /** `__init__` once the project is known to exist: seed an empty agent table, then load. */
    constructor Load(db: Store, projectId: int)
      modifies db`agents
      ensures Valid() && this.db == db && this.projectId == projectId && fresh(ticketManager)
      ensures db.agents == if old(db.agents) == [] then DefaultRows() else old(db.agents)
      ensures LoadedFrom(agents, coordinatorAgent, db.agents)
      ensures forall i :: 0 <= i < |agents| ==> fresh(agents[i]) && agents[i].context == []
    {
      if db.agents == [] {
        CreateDefaultAgents(db);
      }
      var loaded, coordinator := LoadAgents(db.agents);
      this.projectId := projectId;
      this.db := db;
      this.ticketManager := new TicketManager(projectId, db);
      this.agents := loaded;
      this.coordinatorAgent := coordinator;
      new;
      LoadedCoordinatorIsAgent(loaded, coordinator, db.agents);
    }

    /** The first loaded agent with `role`, or null. */
    function AgentWithRole(role: AgentRole): Agent? {
      match FirstWithRole(AgentRoles(agents), role)
      case None => null
      case Some(i) => agents[i]
    }

    /** The planner `_analyze_and_update_project` consults. */
    function Planner(): Agent? {
      AgentWithRole(AgentRole.Planner)
    }

    /** `_analyze_and_update_project` acts on `message`: it asks for a ticket and there is a
        planner to consult. */
    predicate PlansTicket(message: string) {
      AsksForTicket(message) && Planner() != null
    }

    /** `get_agent_by_id`: the loaded agent with that id, or null. */
    method GetAgentById(agentId: int) returns (a: Agent?)
      requires Valid()
      ensures a != null <==> exists i :: 0 <= i < |agents| && agents[i].agentId == agentId
      ensures a != null ==> a in agents && a.agentId == agentId
      ensures a == if 1 <= agentId <= |agents| then agents[agentId - 1] else null
    {
      if 1 <= agentId <= |agents| {
        a := agents[agentId - 1];
      } else {
        a := null;
        assert forall i :: 0 <= i < |agents| ==> agents[i].agentId != agentId;
      }
    }

    /** `get_agent_by_role`: the first loaded agent with the role, or null. */
    method GetAgentByRole(role: AgentRole) returns (a: Agent?)
      ensures a == AgentWithRole(role)
    {
      var i := 0;
      while i < |agents|
        invariant 0 <= i <= |agents|
        invariant forall j :: 0 <= j < i ==> agents[j].role != role
      {
        if agents[i].role == role {
          FirstWithRoleAt(AgentRoles(agents), role, i);
          return agents[i];
        }
        i := i + 1;
      }
      a := null;
    }

    /** The two rows `process_user_message` stores for an exchange with the coordinator. */
    function StoredExchange(message: string, reply: string, conversationId: int, imagePath: Option<string>): seq<Message>
      requires coordinatorAgent != null
    {
      [Message(message, true, Truthy(imagePath), imagePath, None, conversationId),
       Message(reply, false, false, None, Some(coordinatorAgent.agentId), conversationId)]
    }

    /** `process_user_message` followed by `_analyze_and_update_project`. Without a coordinator it
        raises before storing anything. Otherwise the user message and the coordinator's reply are
        stored in that order and the reply returned; a request for a new task, when a planner
        exists, also has the planner consulted and one MEDIUM ticket created. No other agent's
        context changes. */
    method ProcessUserMessage(message: string, conversationId: int, imagePath: Option<string>)
      returns (r: Result<string>)
      requires Valid()
      modifies db`messages, db`tickets, coordinatorAgent, Planner()
      ensures coordinatorAgent == null ==>
        && r == Err(NoCoordinator) && db.messages == old(db.messages) && db.tickets == old(db.tickets)
      ensures coordinatorAgent != null ==>
        && r.Ok? && RepliesTo(r.value, message, imagePath)
        && db.messages == old(db.messages) + StoredExchange(message, r.value, conversationId, imagePath)
        && coordinatorAgent.context == old(coordinatorAgent.context) + Exchange(message, r.value)
        && db.tickets == old(db.tickets) + (if PlansTicket(message) then [RequestedTicket(message, projectId, db.clock)] else [])
      ensures Planner() != null ==>
        Planner().context == old(Planner().context)
          + (if coordinatorAgent != null && AsksForTicket(message) then PlannerExchange(message) else [])
    {
      if coordinatorAgent == null {
        return Err(NoCoordinator);
      }
      PlannerIsNotCoordinator();
      ghost var tickets0 := db.tickets;
      var response := ConsultCoordinator(message, conversationId, imagePath);
      assert db.tickets == tickets0;
      assert Planner() != null ==> Planner().context == old(Planner().context);
      assert Planner() != coordinatorAgent;
      AnalyzeAndUpdateProject(message);
      r := Ok(response);
    }

    /** The middle of `process_user_message`: store the user's message, have the coordinator agent
        answer it, store the answer. */
    method ConsultCoordinator(message: string, conversationId: int, imagePath: Option<string>)
      returns (response: string)
      requires Valid() && coordinatorAgent != null
      modifies db`messages, coordinatorAgent
      ensures RepliesTo(response, message, imagePath)
      ensures db.messages == old(db.messages) + StoredExchange(message, response, conversationId, imagePath)
      ensures coordinatorAgent.context == old(coordinatorAgent.context) + Exchange(message, response)
    {
      db.messages := db.messages + [Message(message, true, Truthy(imagePath), imagePath, None, conversationId)];
      ReplyDecidedByMessage(coordinatorAgent.systemPrompt, coordinatorAgent.context, message, imagePath);
      response := coordinatorAgent.ProcessMessage(message, imagePath);
      db.messages := db.messages + [Message(response, false, false, None, Some(coordinatorAgent.agentId), conversationId)];
    }

    /** `_analyze_and_update_project`: the planner's reply is not consulted; the ticket is made
        from the message alone. */
    method AnalyzeAndUpdateProject(message: string)
      requires Valid()
      modifies db`tickets, Planner()
      ensures db.tickets == old(db.tickets) + (if PlansTicket(message) then [RequestedTicket(message, projectId, db.clock)] else [])
      ensures Planner() != null ==>
        Planner().context == old(Planner().context) + (if AsksForTicket(message) then PlannerExchange(message) else [])
    {
      if AsksForTicket(message) {
        var planner := GetAgentByRole(AgentRole.Planner);
        if planner != null {
          var prompt := PlanningPrompt(message);
          ReplyDecidedByMessage(planner.systemPrompt, planner.context, prompt, None);
          var planResponse := planner.ProcessMessage(prompt, None);
          MediumIsAPriorityName();
          var created := ticketManager.CreateTicket(Take(message, 100), message, "MEDIUM", None, None);
        }
      }
    }

    /** The planner, if any, is a loaded agent other than the coordinator. */
    lemma PlannerIsNotCoordinator()
      requires Valid()
      ensures Planner() != null ==> Planner() in agents && Planner().role == AgentRole.Planner
      ensures Planner() != coordinatorAgent || Planner() == null
    {
    }

    /** `assign_ticket_to_agent`: an agent that was not loaded is refused before the ticket table is
        consulted; otherwise the ticket manager's assignment. */
    method AssignTicketToAgent(ticketId: int, agentId: int) returns (ok: bool)
      requires Valid()
      modifies db`tickets
      ensures !(1 <= agentId <= |agents|) ==> !ok && db.tickets == old(db.tickets)
      ensures 1 <= agentId <= |agents| ==>
        && (ok <==> 1 <= ticketId <= |old(db.tickets)| && 1 <= agentId <= |db.agents|)
        && (!ok ==> db.tickets == old(db.tickets))
        && (ok ==> db.tickets == old(db.tickets)[ticketId - 1 :=
                     Flushed(old(db.tickets)[ticketId - 1],
                             old(db.tickets)[ticketId - 1].(assignedAgentId := Some(agentId), status := InProgress), db.clock)])
    {
      var agent := GetAgentById(agentId);
      if agent == null {
        return false;
      }
      ok := ticketManager.AssignTicket(ticketId, agentId);
    }

    /** `update_ticket_status`, delegated. */
    method UpdateTicketStatus(ticketId: int, status: TicketStatus) returns (ok: bool)
      requires Valid()
      modifies db`tickets
      ensures ok <==> 1 <= ticketId <= |old(db.tickets)|
      ensures !ok ==> db.tickets == old(db.tickets)
      ensures ok ==> db.tickets == old(db.tickets)[ticketId - 1 :=
                       Flushed(old(db.tickets)[ticketId - 1], old(db.tickets)[ticketId - 1].(status := status), db.clock)]
    {
      ok := ticketManager.UpdateTicketStatus(ticketId, status);
    }

    /** `create_checkpoint`: a new, not completed checkpoint of this project with no tickets. */
    method CreateCheckpoint(name: string, description: string, milestoneDate: Option<int>) returns (id: nat)
      requires db.Valid()
      modifies db`checkpoints
      ensures db.Valid()
      ensures db.checkpoints == old(db.checkpoints) + [Checkpoint(name, Some(description), milestoneDate, false, projectId, [])]
      ensures id == |db.checkpoints|
    {
      db.checkpoints := db.checkpoints + [Checkpoint(name, Some(description), milestoneDate, false, projectId, [])];
      id := |db.checkpoints|;
    }

    /** `add_ticket_to_checkpoint`: False when either row is missing or the pair is already linked,
        and then nothing changes; otherwise the ticket is linked. Neither side's project is checked. */
    method AddTicketToCheckpoint(checkpointId: int, ticketId: int) returns (ok: bool)
      requires db.Valid()
      modifies db`checkpoints
      ensures db.Valid()
      ensures !(1 <= checkpointId <= |old(db.checkpoints)| && 1 <= ticketId <= |db.tickets|) ==>
        !ok && db.checkpoints == old(db.checkpoints)
      ensures 1 <= checkpointId <= |old(db.checkpoints)| && 1 <= ticketId <= |db.tickets| ==>
        && (ok <==> ticketId !in old(db.checkpoints)[checkpointId - 1].relatedTickets)
        && db.checkpoints == Link(old(db.checkpoints), checkpointId, ticketId)
    {
      var cp := Lookup(db.checkpoints, checkpointId);
      var t := Lookup(db.tickets, ticketId);
      if cp.None? || t.None? {
        return false;
      }
      if ticketId !in cp.value.relatedTickets {
        LinkKeepsLinksUnique(db.checkpoints, checkpointId, ticketId);
        db.checkpoints := db.checkpoints[checkpointId - 1 := cp.value.(relatedTickets := cp.value.relatedTickets + [ticketId])];
        return true;
      }
      ok := false;
    }

    /** `create_conversation`: a falsy title is replaced by "Conversation " and the formatted time
        of creation, `stamp`. */
    method CreateConversation(title: Option<string>, stamp: string) returns (id: nat)
      modifies db`conversations
      ensures Truthy(title) ==> db.conversations == old(db.conversations) + [Conversation(title, Some(projectId), db.clock)]
      ensures !Truthy(title) ==>
        db.conversations == old(db.conversations) + [Conversation(Some("Conversation " + stamp), Some(projectId), db.clock)]
      ensures id == |db.conversations|
    {
      var t := if Truthy(title) then title.value else "Conversation " + stamp;
      db.conversations := db.conversations + [Conversation(Some(t), Some(projectId), db.clock)];
      id := |db.conversations|;
    }
  }

  /** `AgentCoordinator(project_id)`: raises for a missing project, touching nothing; otherwise
      seeds and loads. */
  method NewCoordinator(db: Store, projectId: int) returns (r: Result<AgentCoordinator>)
    modifies db`agents
    ensures !(1 <= projectId <= |db.projects|) ==> r == Err(NotFound) && db.agents == old(db.agents)
    ensures 1 <= projectId <= |db.projects| ==>
      && r.Ok? && fresh(r.value) && r.value.Valid() && r.value.db == db && r.value.projectId == projectId
      && db.agents == (if old(db.agents) == [] then DefaultRows() else old(db.agents))
      && LoadedFrom(r.value.agents, r.value.coordinatorAgent, db.agents)
      && forall i :: 0 <= i < |r.value.agents| ==> fresh(r.value.agents[i]) && r.value.agents[i].context == []
  {
    if Lookup(db.projects, projectId).None? {
      return Err(NotFound);
    }
    var c := new AgentCoordinator.Load(db, projectId);
    r := Ok(c);
  }

  // ---------------------------------------------------------------------------
  // Properties

  lemma MediumIsAPriorityName()
    ensures PriorityFromName(Upper("MEDIUM")) == Some(Medium)
  {
    assert Upper("MEDIUM") == "MEDIUM";
  }

  lemma FirstWithRoleAt(roles: seq<AgentRole>, role: AgentRole, i: nat)
    requires i < |roles| && roles[i] == role
    requires forall j :: 0 <= j < i ==> roles[j] != role
    ensures FirstWithRole(roles, role) == Some(i)
  {
  }

  /** The loaded coordinator is one of the loaded agents and has the COORDINATOR role; there is none
      exactly when no row has that role. */
  lemma LoadedCoordinatorIsAgent(loaded: seq<Agent>, coordinator: Agent?, rows: seq<AgentRecord>)
    requires LoadedFrom(loaded, coordinator, rows)
    ensures coordinator != null ==> coordinator in loaded && coordinator.role == Coordinator
    ensures coordinator == null <==> forall i :: 0 <= i < |rows| ==> rows[i].role != Coordinator
    ensures forall i :: 0 <= i < |loaded| ==> loaded[i].agentId == i + 1
  {
    var roles := RolesOf(rows);
    match LastWithRole(roles, Coordinator)
    case None =>
    case Some(k) =>
      assert InstanceOf(loaded[k], k + 1, rows[k]);
  }

  /** The loaded agents carry the rows' roles, position by position, so a search by role finds the
      same position in either. */
  lemma LoadedRoles(loaded: seq<Agent>, coordinator: Agent?, rows: seq<AgentRecord>)
    requires LoadedFrom(loaded, coordinator, rows)
    ensures AgentRoles(loaded) == RolesOf(rows)
  {
    assert forall i :: 0 <= i < |rows| ==> AgentRoles(loaded)[i] == RolesOf(rows)[i];
  }

  /** When several rows have the COORDINATOR role, the coordinator is the instance of the last. */
  lemma LastCoordinatorWins(loaded: seq<Agent>, coordinator: Agent?, rows: seq<AgentRecord>, i: nat)
    requires LoadedFrom(loaded, coordinator, rows)
    requires i < |rows| && rows[i].role == Coordinator
    ensures coordinator != null && i + 1 <= coordinator.agentId
    ensures forall j :: coordinator.agentId <= j < |rows| ==> rows[j].role != Coordinator
  {
    var roles := RolesOf(rows);
    var k := LastWithRole(roles, Coordinator).value;
    assert InstanceOf(loaded[k], k + 1, rows[k]);
  }

  /** The default team has one agent per role, in the order of the enumeration, all on the vision
      model, so after seeding the first agent, Alice, is the coordinator. */
  lemma DefaultTeamOnePerRole()
    ensures |DefaultRows()| == |AllRoles| && RolesOf(DefaultRows()) == AllRoles
    ensures forall i :: 0 <= i < |DefaultTeam| ==> DefaultRows()[i].model == VisionModel
    ensures forall r: AgentRole :: r in RolesOf(DefaultRows())
    ensures LastWithRole(RolesOf(DefaultRows()), Coordinator) == Some(0)
  {
    EnumerationsComplete();
    var rows := DefaultRows();
    var roles := RolesOf(rows);
    forall k | 0 <= k < 6 ensures roles[k] == AllRoles[k] {
      assert rows[k] == DefaultRow(DefaultTeam[k]);
    }
    assert roles == AllRoles;
    var last := LastWithRole(roles, Coordinator);
    assert roles[0] == Coordinator;
    assert last.Some?;
    assert roles[1] != Coordinator && roles[2] != Coordinator && roles[3] != Coordinator;
    assert roles[4] != Coordinator && roles[5] != Coordinator;
  }

  /** Linking keeps each checkpoint's ticket list free of duplicates, links the ticket, and
      linking again changes nothing. */
  lemma LinkKeepsLinksUnique(cps: seq<Checkpoint>, checkpointId: int, ticketId: int)
    requires 1 <= checkpointId <= |cps| && LinksUnique(cps)
    ensures LinksUnique(Link(cps, checkpointId, ticketId))
    ensures |Link(cps, checkpointId, ticketId)| == |cps|
    ensures ticketId in Link(cps, checkpointId, ticketId)[checkpointId - 1].relatedTickets
    ensures Link(Link(cps, checkpointId, ticketId), checkpointId, ticketId) == Link(cps, checkpointId, ticketId)
  {
    var cp := cps[checkpointId - 1];
    if ticketId !in cp.relatedTickets {
      var l := Link(cps, checkpointId, ticketId);
      var ts := cp.relatedTickets + [ticketId];
      assert l[checkpointId - 1].relatedTickets == ts;
      assert ts[|ts| - 1] == ticketId;
      forall i, j | 0 <= i < j < |ts| ensures ts[i] != ts[j] {
        if j == |ts| - 1 {
          assert ts[i] == cp.relatedTickets[i];
        } else {
          assert ts[i] == cp.relatedTickets[i] && ts[j] == cp.relatedTickets[j];
        }
      }
      forall k | 0 <= k < |l| ensures NoDuplicates(l[k].relatedTickets) {
        if k != checkpointId - 1 {
          assert l[k] == cps[k];
        }
      }
    }
  }

  /** Only the named checkpoint can change. */
  lemma LinkTouchesOneCheckpoint(cps: seq<Checkpoint>, checkpointId: int, ticketId: int)
    requires 1 <= checkpointId <= |cps|
    ensures forall k :: 0 <= k < |cps| && k != checkpointId - 1 ==> Link(cps, checkpointId, ticketId)[k] == cps[k]
    ensures Link(cps, checkpointId, ticketId)[checkpointId - 1].relatedTickets[..|cps[checkpointId - 1].relatedTickets|]
            == cps[checkpointId - 1].relatedTickets
  {
  }

  /** The heuristic ticket's title is the message's first 100 characters, and its description the
      whole message. */
  lemma RequestedTicketFields(message: string, projectId: int, now: int)
    ensures var t := RequestedTicket(message, projectId, now);
      && t.title == Take(message, 100) && |t.title| == (if |message| <= 100 then |message| else 100)
      && StartsWith(message, t.title) && t.description == Some(message)
      && t.status == Open && t.priority == Medium && t.projectId == projectId
      && t.assignedAgentId == None && t.parentTicketId == None && t.createdAt == now && t.updatedAt == now
  {
  }
}
