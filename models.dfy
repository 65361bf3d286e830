/**
  The domain records of models.py: the four enumerations, the rows the
  store keeps, the defaulting rules of the Ticket constructor, the
  checkpoint/ticket association and Subscription.is_active.
  Timestamps are opaque integers; a larger integer is a later instant.
*/
module Models {
  import opened Wrappers
  import opened Strings

  // ---------------------------------------------------------------------------
  // Enumerations. Each member has a NAME (what getattr looks up) and a VALUE
  // (the lower-case string stored and reported).

  datatype AgentRole = Coordinator | Planner | Researcher | Developer | Tester | Reviewer
  datatype TicketStatus = Open | InProgress | Review | Completed | Blocked
  datatype TicketPriority = Low | Medium | High | Critical
  datatype SubscriptionTier = Basic | Professional | Enterprise

  const AllRoles: seq<AgentRole> := [Coordinator, Planner, Researcher, Developer, Tester, Reviewer]
  const AllStatuses: seq<TicketStatus> := [Open, InProgress, Review, Completed, Blocked]
  const AllPriorities: seq<TicketPriority> := [Low, Medium, High, Critical]
  const AllTiers: seq<SubscriptionTier> := [Basic, Professional, Enterprise]

  function RoleName(r: AgentRole): string {
    match r
    case Coordinator => "COORDINATOR"
    case Planner => "PLANNER"
    case Researcher => "RESEARCHER"
    case Developer => "DEVELOPER"
    case Tester => "TESTER"
    case Reviewer => "REVIEWER"
  }

  function RoleValue(r: AgentRole): string {
    match r
    case Coordinator => "coordinator"
    case Planner => "planner"
    case Researcher => "researcher"
    case Developer => "developer"
    case Tester => "tester"
    case Reviewer => "reviewer"
  }

  function StatusName(s: TicketStatus): string {
    match s
    case Open => "OPEN"
    case InProgress => "IN_PROGRESS"
    case Review => "REVIEW"
    case Completed => "COMPLETED"
    case Blocked => "BLOCKED"
  }

  function StatusValue(s: TicketStatus): string {
    match s
    case Open => "open"
    case InProgress => "in_progress"
    case Review => "review"
    case Completed => "completed"
    case Blocked => "blocked"
  }

  function PriorityName(p: TicketPriority): string {
    match p
    case Low => "LOW"
    case Medium => "MEDIUM"
    case High => "HIGH"
    case Critical => "CRITICAL"
  }

  function PriorityValue(p: TicketPriority): string {
    match p
    case Low => "low"
    case Medium => "medium"
    case High => "high"
    case Critical => "critical"
  }

  function TierName(t: SubscriptionTier): string {
    match t
    case Basic => "BASIC"
    case Professional => "PROFESSIONAL"
    case Enterprise => "ENTERPRISE"
  }

  function TierValue(t: SubscriptionTier): string {
    match t
    case Basic => "basic"
    case Professional => "professional"
    case Enterprise => "enterprise"
  }

  /** `getattr(AgentRole, name)`: the member with that exact name, or None where Python raises. */
  function RoleFromName(name: string): (r: Option<AgentRole>)
    ensures r.Some? ==> RoleName(r.value) == name
    ensures forall x :: RoleName(x) == name ==> r == Some(x)
  {
    if name == "COORDINATOR" then Some(Coordinator)
    else if name == "PLANNER" then Some(Planner)
    else if name == "RESEARCHER" then Some(Researcher)
    else if name == "DEVELOPER" then Some(Developer)
    else if name == "TESTER" then Some(Tester)
    else if name == "REVIEWER" then Some(Reviewer)
    else None
  }

  /** `getattr(TicketStatus, name)` (and `hasattr`: its result is Some). */
  function StatusFromName(name: string): (r: Option<TicketStatus>)
    ensures r.Some? ==> StatusName(r.value) == name
    ensures forall x :: StatusName(x) == name ==> r == Some(x)
  {
    if name == "OPEN" then Some(Open)
    else if name == "IN_PROGRESS" then Some(InProgress)
    else if name == "REVIEW" then Some(Review)
    else if name == "COMPLETED" then Some(Completed)
    else if name == "BLOCKED" then Some(Blocked)
    else None
  }

  /** `getattr(TicketPriority, name)` */
  function PriorityFromName(name: string): (r: Option<TicketPriority>)
    ensures r.Some? ==> PriorityName(r.value) == name
    ensures forall x :: PriorityName(x) == name ==> r == Some(x)
  {
    if name == "LOW" then Some(Low)
    else if name == "MEDIUM" then Some(Medium)
    else if name == "HIGH" then Some(High)
    else if name == "CRITICAL" then Some(Critical)
    else None
  }

  // ---------------------------------------------------------------------------
  // Rows. A row's id is its position in its table plus one (see Database).

  datatype Project = Project(name: string, description: Option<string>)

  datatype AgentRecord = AgentRecord(name: string, role: AgentRole, model: string, description: Option<string>)

  datatype Ticket = Ticket(
    title: string,
    description: Option<string>,
    status: TicketStatus,
    priority: TicketPriority,
    createdAt: int,
    updatedAt: int,
    dueDate: Option<int>,
    projectId: int,
    assignedAgentId: Option<int>,
    parentTicketId: Option<int>)

  /** A checkpoint with its side of the checkpoint_ticket association: the ids of its related tickets. */
  datatype Checkpoint = Checkpoint(
    name: string,
    description: Option<string>,
    milestoneDate: Option<int>,
    completed: bool,
    projectId: int,
    relatedTickets: seq<int>)

  datatype Conversation = Conversation(title: Option<string>, projectId: Option<int>, updatedAt: int)

  datatype Message = Message(
    content: string,
    isUser: bool,
    hasImage: bool,
    imagePath: Option<string>,
    agentId: Option<int>,
    conversationId: int)

  datatype Comment = Comment(content: string, createdAt: int, isUser: bool, ticketId: int, agentId: Option<int>)

  datatype Customer = Customer(
    email: string,
    username: string,
    passwordHash: string,
    companyName: Option<string>,
    stripeCustomerId: Option<string>)

  datatype Subscription = Subscription(
    stripeSubscriptionId: Option<string>,
    tier: SubscriptionTier,
    active: bool,
    startDate: int,
    endDate: Option<int>,
    autoRenew: bool,
    customerId: int)

  /** The roles of agent rows, in table order. */
  function RolesOf(rows: seq<AgentRecord>): (rs: seq<AgentRole>)
    ensures |rs| == |rows| && forall i :: 0 <= i < |rows| ==> rs[i] == rows[i].role
  {
    seq(|rows|, i requires 0 <= i < |rows| => rows[i].role)
  }

  /** `Ticket(title, project_id, description=None, status=None, priority=None, ...)` inserted at
      instant `now`: a missing status becomes OPEN and a missing priority MEDIUM; both timestamps
      default to `now`; every other argument is stored as given. */
  function NewTicket(
    title: string, projectId: int, description: Option<string>, status: Option<TicketStatus>,
    priority: Option<TicketPriority>, dueDate: Option<int>, assignedAgentId: Option<int>,
    parentTicketId: Option<int>, now: int): (t: Ticket)
    ensures t.status == (if status.Some? then status.value else Open)
    ensures t.priority == (if priority.Some? then priority.value else Medium)
    ensures t.createdAt == now && t.updatedAt == now
    ensures t.title == title && t.description == description && t.dueDate == dueDate
    ensures t.projectId == projectId && t.assignedAgentId == assignedAgentId
    ensures t.parentTicketId == parentTicketId
  {
    Ticket(title, description, status.GetOr(Open), priority.GetOr(Medium), now, now, dueDate, projectId,
           assignedAgentId, parentTicketId)
  }

  /** The row a commit stores for a ticket edited from `before` to `after` at instant `now`. A
      row none of whose columns changed is not written back; any other row is written and its
      `updated_at` is restamped by `onupdate=datetime.utcnow`. */
  function Flushed(before: Ticket, after: Ticket, now: int): Ticket {
    if after == before then before else after.(updatedAt := now)
  }

  /** `Subscription.is_active` at instant `now`. */
  predicate IsActive(s: Subscription, now: int) {
    if !s.active then false
    else if s.endDate.Some? && s.endDate.value < now then false
    else true
  }

  /** No ticket id occurs twice in one checkpoint: the composite primary key of checkpoint_ticket. */
  predicate NoDuplicates<T(==)>(s: seq<T>) {
    forall i, j :: 0 <= i < j < |s| ==> s[i] != s[j]
  }

  predicate LinksUnique(cps: seq<Checkpoint>) {
    forall k :: 0 <= k < |cps| ==> NoDuplicates(cps[k].relatedTickets)
  }

  // ---------------------------------------------------------------------------
  // Properties

  /** Each enumeration lists its members exactly once and misses none. */
  lemma EnumerationsComplete()
    ensures |AllRoles| == 6 && NoDuplicates(AllRoles) && forall r: AgentRole :: r in AllRoles
    ensures |AllStatuses| == 5 && NoDuplicates(AllStatuses) && forall s: TicketStatus :: s in AllStatuses
    ensures |AllPriorities| == 4 && NoDuplicates(AllPriorities) && forall p: TicketPriority :: p in AllPriorities
    ensures |AllTiers| == 3 && NoDuplicates(AllTiers) && forall t: SubscriptionTier :: t in AllTiers
  {
    forall r: AgentRole ensures r in AllRoles {
      match r
      case Coordinator => assert AllRoles[0] == r;
      case Planner => assert AllRoles[1] == r;
      case Researcher => assert AllRoles[2] == r;
      case Developer => assert AllRoles[3] == r;
      case Tester => assert AllRoles[4] == r;
      case Reviewer => assert AllRoles[5] == r;
    }
    forall s: TicketStatus ensures s in AllStatuses {
      match s
      case Open => assert AllStatuses[0] == s;
      case InProgress => assert AllStatuses[1] == s;
      case Review => assert AllStatuses[2] == s;
      case Completed => assert AllStatuses[3] == s;
      case Blocked => assert AllStatuses[4] == s;
    }
    forall p: TicketPriority ensures p in AllPriorities {
      match p
      case Low => assert AllPriorities[0] == p;
      case Medium => assert AllPriorities[1] == p;
      case High => assert AllPriorities[2] == p;
      case Critical => assert AllPriorities[3] == p;
    }
    forall t: SubscriptionTier ensures t in AllTiers {
      match t
      case Basic => assert AllTiers[0] == t;
      case Professional => assert AllTiers[1] == t;
      case Enterprise => assert AllTiers[2] == t;
    }
  }

  /** Each role's value is its name in lower case. */
  lemma RoleValueIsLowerName(r: AgentRole)
    ensures RoleValue(r) == Lower(RoleName(r))
  {
    match r
    case Coordinator => assert Lower("COORDINATOR") == "coordinator";
    case Planner => assert Lower("PLANNER") == "planner";
    case Researcher => assert Lower("RESEARCHER") == "researcher";
    case Developer => assert Lower("DEVELOPER") == "developer";
    case Tester => assert Lower("TESTER") == "tester";
    case Reviewer => assert Lower("REVIEWER") == "reviewer";
  }

  /** Each status's value is its name in lower case. */
  lemma StatusValueIsLowerName(s: TicketStatus)
    ensures StatusValue(s) == Lower(StatusName(s))
  {
    match s
    case Open => assert Lower("OPEN") == "open";
    case InProgress => assert Lower("IN_PROGRESS") == "in_progress";
    case Review => assert Lower("REVIEW") == "review";
    case Completed => assert Lower("COMPLETED") == "completed";
    case Blocked => assert Lower("BLOCKED") == "blocked";
  }

  /** Each priority's value is its name in lower case. */
  lemma PriorityValueIsLowerName(p: TicketPriority)
    ensures PriorityValue(p) == Lower(PriorityName(p))
  {
    match p
    case Low => assert Lower("LOW") == "low";
    case Medium => assert Lower("MEDIUM") == "medium";
    case High => assert Lower("HIGH") == "high";
    case Critical => assert Lower("CRITICAL") == "critical";
  }

  /** Each tier's value is its name in lower case. */
  lemma TierValueIsLowerName(t: SubscriptionTier)
    ensures TierValue(t) == Lower(TierName(t))
  {
    match t
    case Basic => assert Lower("BASIC") == "basic";
    case Professional => assert Lower("PROFESSIONAL") == "professional";
    case Enterprise => assert Lower("ENTERPRISE") == "enterprise";
  }

  /** Looking a status up by its upper-cased stored value finds that status. */
  lemma StatusRoundTrip(s: TicketStatus)
    ensures StatusFromName(Upper(StatusValue(s))) == Some(s)
  {
    match s
    case Open => assert Upper("open") == "OPEN";
    case InProgress => assert Upper("in_progress") == "IN_PROGRESS";
    case Review => assert Upper("review") == "REVIEW";
    case Completed => assert Upper("completed") == "COMPLETED";
    case Blocked => assert Upper("blocked") == "BLOCKED";
  }

  /** Looking a priority up by its upper-cased stored value finds that priority. */
  lemma PriorityRoundTrip(p: TicketPriority)
    ensures PriorityFromName(Upper(PriorityValue(p))) == Some(p)
  {
    match p
    case Low => assert Upper("low") == "LOW";
    case Medium => assert Upper("medium") == "MEDIUM";
    case High => assert Upper("high") == "HIGH";
    case Critical => assert Upper("critical") == "CRITICAL";
  }

  /** Looking a role up by its upper-cased stored value finds that role. */
  lemma RoleRoundTrip(r: AgentRole)
    ensures RoleFromName(Upper(RoleValue(r))) == Some(r)
  {
    match r
    case Coordinator => assert Upper("coordinator") == "COORDINATOR";
    case Planner => assert Upper("planner") == "PLANNER";
    case Researcher => assert Upper("researcher") == "RESEARCHER";
    case Developer => assert Upper("developer") == "DEVELOPER";
    case Tester => assert Upper("tester") == "TESTER";
    case Reviewer => assert Upper("reviewer") == "REVIEWER";
  }

  /** Expiry is permanent: a subscription active at some instant was active at every earlier one. */
  lemma ActiveEarlier(s: Subscription, earlier: int, later: int)
    requires earlier <= later && IsActive(s, later)
    ensures IsActive(s, earlier)
  {
  }
}
