# Fractalyx core, modelled in Dafny

Fractalyx is a Flask application. A user talks to a team of six large-language-model
agents: coordinator, planner, researcher, developer, tester and reviewer. The team works on
projects through a ticket system, and checkpoints group the tickets. Customers register,
log in and hold Stripe subscriptions. This project models the deterministic logic under
the web plumbing and proves properties of it:

- the enumerations and record defaults of `models.py`;
- the priority normaliser and key/value post-processing of `agent_system/utils.py`;
- the mock inference client, which picks a canned reply by keyword;
- the agents with their growing conversation context;
- the ticket manager;
- the agent coordinator;
- the seeding script;
- the rules inside the API, payment-webhook and authentication route handlers.

The database is a `Store` object (`database.dfy`). Each table is a `seq` field, and the row
at index `i` has id `i + 1`. The core never deletes rows, so ids are auto-increment ids
from 1. A query returns rows in id order. A `Store.Valid()` invariant collects the
database's constraints:

- comment timestamps never decrease;
- a (checkpoint, ticket) pair occurs at most once, because of its composite primary key;
- Stripe subscription ids are unique;
- customer usernames and emails are unique.

A transaction that fails and is rolled back leaves its tables unchanged. Methods modify
single fields of the store (`db`tickets`), so their frames state that nothing else changes.

Timestamps are integers: the store's `clock` is "now", and a larger value is later.
Password hashing and checking are parameters of the authentication handlers. The Ollama
client as shipped is the mock. Its reply depends only on the history, so it is modelled as
pure functions.

Modules follow the source files:

| file | source |
|---|---|
| `models.dfy` | `models.py` |
| `utils.dfy` | `agent_system/utils.py` |
| `ollama_client.dfy` | `agent_system/ollama_client.py` |
| `agents.dfy` | `agent_system/agents.py` |
| `ticket_system.dfy` | `agent_system/ticket_system.py` |
| `coordinator.dfy` | `agent_system/coordinator.py` |
| `init_agents.dfy` | `init_agents.py` |
| `api_routes.dfy` | `routes/api_routes.py` |
| `payment_routes.dfy` | `routes/payment_routes.py` |
| `auth_routes.dfy` | `routes/auth_routes.py` |

`wrappers.dfy` (Option, Result, error kinds), `strings.dfy` (Python's `upper`, `lower`,
`strip`, `in` on strings, slicing, truthiness, `os.path.basename`) and `database.dfy` (the
store) support them.

Four behaviours of the code deserve note, and the model follows each of them:

- `get_or_404` raises werkzeug's `NotFound`, which would be a 404, but the handlers call it
  inside `try: ... except Exception`, and that clause catches it and answers 500. So the
  model answers a missing project, ticket, agent, checkpoint or conversation with
  `ServerError` (500).
- An enum string is checked unevenly. `update_ticket_status` answers an unknown status with
  a 400 (routes/api_routes.py:435-436). `create_project_ticket` looks the priority up with
  `getattr` outside any check, so there an unknown priority is a 500
  (routes/api_routes.py:155-156). The ticket manager's `create_ticket` and
  `get_all_tickets` raise the same way (`Err(InvalidName)`).
- Missing tickets are reported unevenly too. `get_ticket` and `update_ticket` answer a
  missing ticket with None and False (agent_system/ticket_system.py:73-75, 158-161), while
  `add_comment` raises `ValueError` (agent_system/ticket_system.py:228-230, `Err(NotFound)`).
- The code disagrees with itself in two places, and both are modelled as written:
  - `TicketManager.assign_ticket` forces IN_PROGRESS, while the assign route moves only
    OPEN to IN_PROGRESS (`ApiRoutes.AssignmentRulesDiffer`);
  - `parse_priority` defaults to MEDIUM, while `create_ticket` rejects an unknown name
    (`Utils.ParsePriorityVersusEnumLookup`).

## Model

| member | source | states |
|---|---|---|
| Models.RoleFromName | models.py:7-13 | `getattr(AgentRole, name)`: finds exactly the member with that name, and none when no member has it |
| Models.StatusFromName | models.py:16-21 | `getattr(TicketStatus, name)`: finds exactly the member with that name, and none when no member has it |
| Models.PriorityFromName | models.py:24-28 | `getattr(TicketPriority, name)`: finds exactly the member with that name, and none when no member has it |
| Models.EnumerationsComplete | models.py:7-34 | 6 roles, 5 statuses, 4 priorities and 3 tiers; each list has no repeats and every member is in it |
| Models.RoleValueIsLowerName | models.py:7-13 | each role's stored value is its name in lower case |
| Models.StatusValueIsLowerName | models.py:16-21 | each status's stored value is its name in lower case |
| Models.PriorityValueIsLowerName | models.py:24-28 | each priority's stored value is its name in lower case |
| Models.TierValueIsLowerName | models.py:31-34 | each tier's stored value is its name in lower case |
| Models.StatusRoundTrip | models.py:16-21 | upper-casing a status's stored value and looking the name up gives that status back |
| Models.PriorityRoundTrip | models.py:24-28 | upper-casing a priority's stored value and looking the name up gives that priority back |
| Models.RoleRoundTrip | models.py:7-13 | upper-casing a role's stored value and looking the name up gives that role back |
| Models.RolesOf | models.py:69-86 | the role column of an agent table, position by position |
| Models.NewTicket | models.py:104-149 | a missing status becomes OPEN and a missing priority MEDIUM; supplied values are kept; title, description, due date, project, assignee and parent are stored unchanged; `created_at` and `updated_at` are both now |
| Models.ActiveEarlier | models.py:303-308 | a subscription active at some instant was active at every earlier instant |
| Database.Lookup | agent_system/ticket_system.py:73-75 | `Query.get(id)`: a row exactly when `1 <= id <= table size`, and then the row with that id |
| Database.FirstWhere | routes/auth_routes.py:26 | `filter_by(...).first()`: the first row that matches, or none exactly when no row matches |
| Utils.ParsePriority | agent_system/utils.py:100-122 | the result is always one of HIGH, MEDIUM, LOW, CRITICAL |
| Utils.ParsePriorityIgnoresCaseAndSpace | agent_system/utils.py:110 | upper-casing or stripping the input first changes nothing |
| Utils.ParsePriorityTable | agent_system/utils.py:110-122 | the synonym table: H→HIGH; MED, M→MEDIUM; L→LOW; CRIT, C→CRITICAL; any other normalised input gives MEDIUM |
| Utils.StripUpperCanonical | agent_system/utils.py:110 | normalising a canonical name leaves it as it is |
| Utils.ParsePriorityIdempotent | agent_system/utils.py:110-122 | applying the normaliser to its own output gives that output |
| Utils.ParsePriorityNamesMember | agent_system/utils.py:112-122 | every normaliser output is a `TicketPriority` member name |
| Utils.ParsePriorityVersusEnumLookup | agent_system/utils.py:120-122 | "urgent" becomes MEDIUM and " high " becomes HIGH, while the enum lookup of `create_ticket` rejects both |
| Utils.NormalKey | agent_system/utils.py:80 | a normalised key contains no space |
| Utils.ExtractStructuredData | agent_system/utils.py:79-84 | the loop fills the dictionary exactly as the fold `StructuredData` over the matches does |
| Utils.StructuredDataKeys | agent_system/utils.py:79-82 | every stored key is space-free and is the normalised key of some match |
| Utils.StructuredDataLastWins | agent_system/utils.py:81-82 | the last match with a given normalised key supplies its stripped value |
| Strings.StripTrims | agent_system/utils.py:80-81 | `strip()` gives a slice of the input with no whitespace at either end |
| Strings.StripIdempotent | agent_system/utils.py:80-81 | stripping twice is stripping once |
| Strings.UpperStripCommute | agent_system/utils.py:110 | upper-casing and stripping commute |
| Strings.BasenameIsLastComponent | agent_system/ollama_client.py:82 | `os.path.basename`: a suffix of the path with no '/', and the path itself when it has none |
| Strings.Take | routes/api_routes.py:665 | `s[:n]`: the first `min(n, len(s))` characters, a prefix of `s` |
| OllamaClient.Entry | agent_system/ollama_client.py:101 | the dict has exactly the keys "role" and "content", with the given values |
| OllamaClient.FormatMessages | agent_system/ollama_client.py:90-115 | n+1 entries: the system prompt first, then each message with role "assistant" kept, any other or missing role made "user", and its content kept ("" when missing) |
| OllamaClient.KeywordPrecedence | agent_system/ollama_client.py:41-56 | each canned reply is chosen exactly when its keyword occurs in the lower-cased message and no earlier keyword does: help, then project/plan, then task/ticket, then research, then code/develop, else the default |
| OllamaClient.EmptyHistoryGreets | agent_system/ollama_client.py:38-39 | an empty history gets exactly the greeting |
| OllamaClient.ReplyDependsOnLastEntry | agent_system/ollama_client.py:38-85 | two histories with the same last entry get the same reply, whatever the system prompts and earlier turns |
| OllamaClient.NonUserLastEntryGetsDefault | agent_system/ollama_client.py:42-56 | a last entry whose role is not "user" gets the default reply |
| OllamaClient.ImageReplyNamesFile | agent_system/ollama_client.py:79-85 | with any history, the image reply contains the image's basename, whatever the message says |
| OllamaClient.ImageReplyQuotes | agent_system/ollama_client.py:85 | the image reply quotes the file name it is given |
| Agents.Agent.constructor | agent_system/agents.py:14-30 | id, name, role and model are stored; the system prompt is the base prompt and the role's text; the context starts empty |
| Agents.Exchange | agent_system/agents.py:59-75 | the two entries of one turn: ("user", message) then ("assistant", reply) |
| Agents.Agent.ProcessMessage | agent_system/agents.py:47-77 | the client sees the old context plus the user turn, through `generate_with_image` for a truthy image path and `generate` otherwise; the context grows by exactly the user turn and the reply, and the reply is returned |
| Agents.Agent.ResetContext | agent_system/agents.py:79-82 | the context becomes empty; identity and prompt are constants and stay as they were |
| Agents.ReplyDecidedByMessage | agent_system/agents.py:59-72 | because the just-added user turn is last, the reply depends on the message and image path only |
| Agents.BasePromptNamesAgentAndRole | agent_system/agents.py:33-40 | the system prompt starts with "You are <name>" and contains the role's value |
| Agents.OpeningNamesAgentAndRole | agent_system/agents.py:35-38 | whatever follows the base prompt, the prompt keeps that opening and the role's value |
| TicketSystem.AgentRef | agent_system/ticket_system.py:92-99 | the `assigned_to` summary exists exactly when the agent id is set, non-zero and names an agent, and it carries that agent's id, name and role |
| TicketSystem.TicketManager.constructor | agent_system/ticket_system.py:14-22 | remembers the project id and the store |
| TicketSystem.TicketManager.CreateTicket | agent_system/ticket_system.py:24-62 | an unknown priority name (after upper-casing) is an error and adds nothing; otherwise one OPEN ticket of the manager's project with that priority is added and its fresh id is returned |
| TicketSystem.TicketManager.GetTicket | agent_system/ticket_system.py:64-101 | none for a missing id; otherwise that ticket with its id and its assignee summary |
| TicketSystem.TicketManager.GetAllTickets | agent_system/ticket_system.py:103-144 | no status: the project's tickets; a valid status: those of the project with it; an invalid name: an error |
| TicketSystem.ListingSoundness | agent_system/ticket_system.py:113-144 | every listed entry is a ticket of the project (with the filter's status), in increasing id order, with its own assignee summary |
| TicketSystem.ListingCompleteness | agent_system/ticket_system.py:113-144 | every ticket of the project with the filter's status is listed |
| TicketSystem.ListingMembers | agent_system/ticket_system.py:113-119 | an id is listed exactly when its ticket is in the project and passes the filter |
| TicketSystem.ListedIdSelected | agent_system/ticket_system.py:113-119 | a listed id's ticket passes the query |
| TicketSystem.SelectedIdListed | agent_system/ticket_system.py:113-119 | a ticket that passes the query is listed |
| TicketSystem.KnownOnly | agent_system/ticket_system.py:164-165 | keeps only updates that name a ticket attribute |
| TicketSystem.TicketManager.UpdateTicket | agent_system/ticket_system.py:146-181 | a missing ticket gives False and no change; otherwise the keyword updates are applied in order, with status and priority strings converted to enum members, and the commit stamps `updated_at` now when a column changed; a bad name gives False with the table unchanged |
| TicketSystem.UnknownKeysIgnored | agent_system/ticket_system.py:164-165 | keys that are not ticket attributes have no effect |
| TicketSystem.PatchFailsIffBadName | agent_system/ticket_system.py:164-181 | an update fails exactly when some status or priority string is not a member name |
| TicketSystem.StepKeepsOtherFields | agent_system/ticket_system.py:172 | one `setattr` changes only the field it names |
| TicketSystem.UntouchedFieldsKept | agent_system/ticket_system.py:164-172 | a field no update names keeps its value |
| TicketSystem.PatchStampsChange | models.py:107-110 | the commit after a patch keeps `created_at`, leaves the row as it was exactly when the patch changed nothing, and otherwise stores the patched row with `updated_at` now |
| TicketSystem.PatchComposes | agent_system/ticket_system.py:164-172 | applying two update lists one after the other equals applying their concatenation |
| TicketSystem.LastStatusNameWins | agent_system/ticket_system.py:167-168 | a trailing status string sets the status to its member |
| TicketSystem.WritesArePatches | agent_system/ticket_system.py:202-203 | the assignment and status writes are the patches `assigned_agent_id, status=IN_PROGRESS` and `status=s` |
| TicketSystem.TicketManager.AssignTicket | agent_system/ticket_system.py:183-211 | False and no change when the ticket or agent is missing; otherwise sets the assignee and IN_PROGRESS, whatever the prior status, stamping `updated_at` now when that changes the row |
| TicketSystem.TicketManager.AddComment | agent_system/ticket_system.py:213-247 | a missing ticket is an error and adds nothing; otherwise exactly one comment with the given fields, stamped now, is added and its id returned; comments stay in time order |
| TicketSystem.TicketManager.UpdateTicketStatus | agent_system/ticket_system.py:249-274 | False for a missing ticket; otherwise only that ticket's status changes (and `updated_at`, to now, when the status is new), and the result is True |
| TicketSystem.TicketManager.GetTicketComments | agent_system/ticket_system.py:276-314 | [] for a missing ticket; otherwise the listing of that ticket's comments |
| TicketSystem.CommentListingSoundness | agent_system/ticket_system.py:291-312 | every listed comment belongs to the ticket and carries that row's content, time and user flag; ids increase and times never decrease |
| TicketSystem.CommentListingCompleteness | agent_system/ticket_system.py:291 | every comment of the ticket is listed |
| Coordinator.AgentRoles | agent_system/coordinator.py:127-128 | the role of each loaded agent, position by position |
| Coordinator.FirstWithRole | agent_system/coordinator.py:127-130 | the first position with the role, or none exactly when no agent has it |
| Coordinator.LastWithRole | agent_system/coordinator.py:42-48 | the last position with the role, or none exactly when no agent has it |
| Coordinator.DefaultRows | agent_system/coordinator.py:54-69 | the six default rows, one per entry of the default team, each with description "Default <role> agent" |
| Coordinator.CreateDefaultAgents | agent_system/coordinator.py:52-73 | appends exactly the six default rows |
| Coordinator.CreateAgentInstance | agent_system/coordinator.py:75-103 | a fresh agent with the row's id, name, role and model and an empty context |
| Coordinator.LoadAgents | agent_system/coordinator.py:42-48 | one fresh agent per row, in order, keyed by id; the coordinator is the agent of the last COORDINATOR row |
| Coordinator.AgentCoordinator.Load | agent_system/coordinator.py:16-48 | seeds the default rows only when the agent table is empty, then loads every row |
| Coordinator.NewCoordinator | agent_system/coordinator.py:30-34 | a missing project is an error with no change; otherwise a loaded coordinator over the possibly seeded table |
| Coordinator.LoadedRoles | agent_system/coordinator.py:42-48 | the loaded agents carry the rows' roles position by position, so a search by role finds the same position among agents and rows |
| Coordinator.LoadedCoordinatorIsAgent | agent_system/coordinator.py:42-48 | the coordinator, if any, is a loaded agent with role COORDINATOR; there is none exactly when no row has that role; agent i has id i+1 |
| Coordinator.LastCoordinatorWins | agent_system/coordinator.py:42-48 | the coordinator is the last COORDINATOR row: every COORDINATOR row is at or before it |
| Coordinator.DefaultTeamOnePerRole | agent_system/coordinator.py:54-61 | the default team has one agent per role in enumeration order, all on the vision model, and its coordinator is Alice |
| Coordinator.AgentCoordinator.GetAgentById | agent_system/coordinator.py:105-115 | the agent with that id, or null exactly when no agent has it |
| Coordinator.AgentCoordinator.GetAgentByRole | agent_system/coordinator.py:117-130 | the first loaded agent with the role, or null |
| Coordinator.FirstWithRoleAt | agent_system/coordinator.py:127-130 | the first position holding a role is the one found |
| Coordinator.AgentCoordinator.ProcessUserMessage | agent_system/coordinator.py:132-175 | without a coordinator: an error, and no message or ticket is stored; otherwise the user message (`has_image` iff the path is truthy) and the coordinator's reply are stored in that order, the reply (the mock's answer to that message and image path, whatever the history) is returned, and the ticket rule runs |
| Coordinator.AgentCoordinator.ConsultCoordinator | agent_system/coordinator.py:147-170 | stores the two messages around the coordinator's turn and returns its reply, the mock's answer to that message and image path |
| Coordinator.AgentCoordinator.AnalyzeAndUpdateProject | agent_system/coordinator.py:177-207 | a ticket is added exactly when the lower-cased message contains "new task" or "create ticket" and a planner exists; the planner's context then grows by the planning exchange |
| Coordinator.AgentCoordinator.PlannerIsNotCoordinator | agent_system/coordinator.py:191 | the planner found is a loaded PLANNER and so never the coordinator |
| Coordinator.RequestedTicketFields | agent_system/coordinator.py:202-207 | the ticket's title is the message's first 100 characters and a prefix of it, the description is the whole message, status OPEN, priority MEDIUM, no assignee or parent, both timestamps now |
| Coordinator.MediumIsAPriorityName | agent_system/coordinator.py:206 | the priority "MEDIUM" passed to `create_ticket` is a member name, so that call cannot fail |
| Coordinator.AgentCoordinator.AssignTicketToAgent | agent_system/coordinator.py:210-226 | False without touching the tickets when the agent is not loaded; otherwise the ticket manager's assignment, with its `updated_at` stamp |
| Coordinator.AgentCoordinator.UpdateTicketStatus | agent_system/coordinator.py:228-239 | the ticket manager's status change, with its `updated_at` stamp |
| Coordinator.AgentCoordinator.CreateCheckpoint | agent_system/coordinator.py:241-262 | adds one uncompleted checkpoint of the project with no tickets and returns its id |
| Coordinator.AgentCoordinator.AddTicketToCheckpoint | agent_system/coordinator.py:264-288 | False when either side is missing; otherwise links the pair, and the result is True exactly when it was not linked before |
| Coordinator.LinkKeepsLinksUnique | agent_system/coordinator.py:282-283 | linking keeps pairs unique, leaves the ticket linked, and linking twice is linking once |
| Coordinator.LinkTouchesOneCheckpoint | agent_system/coordinator.py:282-283 | only the named checkpoint changes, and its earlier links are kept in order |
| Coordinator.AgentCoordinator.CreateConversation | agent_system/coordinator.py:290-310 | a falsy title becomes "Conversation <stamp>"; one conversation of the project is added and its id returned |
| InitAgents.CreateDefaultAgents | init_agents.py:7-60 | the agent table after the script is the seeding function of the table before it |
| InitAgents.SeedingAddsOnePerRole | init_agents.py:11-59 | a non-empty table is unchanged; an empty one receives six rows, one per role in enumeration order |
| InitAgents.SeedModels | init_agents.py:18-53 | the coordinator runs "llama3:8b-vision" and the other five "llama3:8b" |
| InitAgents.SeedingIdempotent | init_agents.py:11-14 | a second run adds nothing |
| ApiRoutes.GetProjectTickets | routes/api_routes.py:100-137 | the project's tickets, restricted to the filter's status when it names a member |
| ApiRoutes.InvalidFilterIgnored | routes/api_routes.py:105-111 | a missing, empty or unknown filter selects no status; a used filter names a member equal to the upper-cased text |
| ApiRoutes.CreateProjectTicket | routes/api_routes.py:143-200 | in order: missing project 500, missing title 400, unknown priority 500, bad due date 400; otherwise one OPEN ticket with the priority (MEDIUM by default) and description ("" by default), created now, is added and its id returned; a failure adds nothing |
| ApiRoutes.CreateProjectCheckpoint | routes/api_routes.py:235-284 | missing project 500, missing name 400, bad date 500; otherwise one uncompleted checkpoint linked to the admitted ticket ids is added, and a repeated id violates the pair key and adds nothing (500) |
| ApiRoutes.AdmittedExactly | routes/api_routes.py:261-266 | an id is linked exactly when it is listed and names a ticket of the same project |
| ApiRoutes.AdmittedKeepsDistinct | routes/api_routes.py:261-266 | distinct requested ids give distinct links |
| ApiRoutes.UpdateCheckpointStatus | routes/api_routes.py:775-798 | missing checkpoint 500; no "completed" key 400; otherwise only that flag changes, to the supplied value |
| ApiRoutes.RouteAssigned | routes/api_routes.py:400-404 | sets the assignee; OPEN becomes IN_PROGRESS and any other status is kept; nothing else changes |
| ApiRoutes.AssignTicket | routes/api_routes.py:388-420 | missing ticket 500, missing or zero agent id 400, missing agent 500; otherwise the ticket is assigned under the route's rule, `updated_at` is stamped now when the row changed, and its status returned |
| ApiRoutes.AssignmentRulesDiffer | routes/api_routes.py:403-404 | for a ticket in REVIEW, COMPLETED or BLOCKED the route keeps its status, unlike the ticket manager's assignment |
| ApiRoutes.UpdateTicketStatus | routes/api_routes.py:423-451 | missing ticket 500, missing status 400, a name that is no member after upper-casing 400 "Invalid status: NAME"; otherwise only the status changes, and `updated_at` becomes now when the status is new |
| ApiRoutes.ProjectForTurn | routes/api_routes.py:601-619 | the conversation's own project id when it is truthy; otherwise the first project's id, with a "General" project added first when the table is empty; only the project table changes |
| ApiRoutes.LoadForTurn | routes/api_routes.py:604-623 | a missing project is an error with nothing written; otherwise a coordinator of that project loaded from the (seeded when empty) agent table, a conversation without its own project attached to it and stamped now by `onupdate` (models.py:218-220), a coordinator that exists exactly when some row is COORDINATOR and then has the last such row's id, and a ticket rule that fires exactly when the message asks for one and some row is PLANNER |
| ApiRoutes.LoadedTurn | agent_system/coordinator.py:42-48 | a coordinator loaded from a table is null exactly when no row is COORDINATOR, otherwise the agent of the last such row with its id and name; it plans a ticket exactly when the message asks and some row is PLANNER |
| ApiRoutes.CoordinatorTurn | routes/api_routes.py:627-638 | without a coordinator an error and no message or ticket stored; otherwise the mock's reply to the message, the coordinator's name, the user message and the reply stored in that order, and the requested ticket when one is planned |
| ApiRoutes.AttachStampsChange | routes/api_routes.py:621-623 | attaching sets the turn's project and keeps the title; it changes the row exactly when the conversation had no own project, and then `updated_at` is now (models.py:218-220) |
| ApiRoutes.RunTurn | routes/api_routes.py:604-638 | a missing project is an error with nothing written; otherwise the seeded agent table and the attached conversation, stamped when attached, stay written, the turn succeeds exactly when some row is COORDINATOR, a failed turn stores nothing more, and a successful one returns the mock's reply with the last COORDINATOR row's name and stores the two messages and any requested ticket |
| ApiRoutes.Retitle | routes/api_routes.py:661-671 | the conversation is stamped now and retitled by the title rule; nothing else changes |
| ApiRoutes.AddConversationMessage | routes/api_routes.py:569-683 | missing conversation 500 and no content and no image 400, both with nothing written; a missing own project 500 with nothing written; otherwise the "General" project, the seeded agents and the attachment (which stamps the conversation now) stay committed, and the answer is a success exactly when some agent row is COORDINATOR; a failure (500) stores nothing more; a success returns the mock's reply and the last COORDINATOR row's name, stores the user message and the reply and any requested ticket, and stamps and retitles the conversation |
| ApiRoutes.ChosenTitleKept | routes/api_routes.py:663 | a non-empty title that does not start with "Conversation" is kept |
| ApiRoutes.DerivedTitleShape | routes/api_routes.py:663-668 | a replaced title is the message's first 30 characters with "..." appended exactly when the message is longer |
| PaymentRoutes.CustomerWithStripeId | routes/payment_routes.py:136 | the first customer with that Stripe id, or none exactly when there is no such customer |
| PaymentRoutes.SubscriptionWithStripeId | routes/payment_routes.py:168 | the first subscription with that Stripe id, or none exactly when there is no such subscription |
| PaymentRoutes.Webhook | routes/payment_routes.py:88-124 | rejected (400) exactly when the event or its data object is missing, with no change; the three known types go to their handlers; any other type changes nothing and succeeds |
| PaymentRoutes.HandleCheckoutCompleted | routes/payment_routes.py:126-156 | the subscription table after the handler is `AfterCheckout` of the table before it |
| PaymentRoutes.CheckoutAddsOne | routes/payment_routes.py:129-151 | nothing is created without both ids or for an unknown customer; at most one row is added, and it belongs to that customer, is PROFESSIONAL and active; subscription ids stay unique |
| PaymentRoutes.CheckoutSubscriptionActive | routes/payment_routes.py:143-148 | the created subscription is active at every instant |
| PaymentRoutes.HandleSubscriptionUpdated | routes/payment_routes.py:158-182 | with a truthy id, the matching row's active flag becomes "status is active or trialing"; otherwise no change |
| PaymentRoutes.HandleSubscriptionDeleted | routes/payment_routes.py:184-207 | with a truthy id, the matching row's active flag becomes false; otherwise no change |
| PaymentRoutes.SetActiveTouchesOneRow | routes/payment_routes.py:168-175 | only the first row with the id changes, and only its active flag |
| PaymentRoutes.FirstSubscriptionAt | routes/payment_routes.py:168 | the first row holding an id is the one found |
| PaymentRoutes.SetActiveIdempotent | routes/payment_routes.py:193-200 | applying the same flag twice is applying it once |
| PaymentRoutes.DeactivatedIsInactive | routes/payment_routes.py:200 | a deleted subscription is inactive at every instant |
| AuthRoutes.Session.constructor | routes/auth_routes.py:35 | a new session is empty |
| AuthRoutes.CustomerNamed | routes/auth_routes.py:26 | the first customer with that username, or none exactly when there is no such customer |
| AuthRoutes.CustomerWithEmail | routes/auth_routes.py:24 | the first customer with that email, or none exactly when there is no such customer |
| AuthRoutes.Register | routes/auth_routes.py:51-92 | the error is the validation chain's; with an error nothing is stored and the session is kept; otherwise one customer with the hashed password and the company ("" by default) is added, and the session gains its id and username without being cleared |
| AuthRoutes.RegistrationPrecedence | routes/auth_routes.py:63-70 | a missing field hides every later check, a password mismatch hides the name checks, and registration passes exactly when fields are present, passwords match and neither username nor email is taken |
| AuthRoutes.RegistrationKeepsCustomersUnique | routes/auth_routes.py:63-78 | a customer admitted by the chain keeps usernames and emails unique |
| AuthRoutes.Login | routes/auth_routes.py:14-48 | succeeds exactly when the looked-up customer exists and the password checks; an unknown user and a wrong password give the same message and leave the session alone; success clears the session and then holds exactly the id and username |
| AuthRoutes.LoginLookupByShape | routes/auth_routes.py:23-26 | an identifier containing '@' is looked up by email, any other by username |
| AuthRoutes.Logout | routes/auth_routes.py:94-99 | the session becomes empty |
| AuthRoutes.LoginRequired | routes/auth_routes.py:102-109 | a redirect exactly when "user_id" is not in the session, otherwise the view's result |
| AuthRoutes.GateFollowsLogin | routes/auth_routes.py:35-107 | a logged-in session opens the gate and a cleared one does not |

## Left out

- HTTP and Flask machinery is not modelled: request parsing, JSON bodies, templates, flashes and redirects. Route results are a small `Response` datatype, and authentication handlers return the message they would flash.
- JSON values are not typed dynamically. A field the handlers read is an `Option` of the type they expect. A non-boolean `completed` and non-string titles are not modelled. An explicit JSON `null` is modelled as an absent key: `{"priority": null}` raises at `None.upper()` (routes/api_routes.py:155-156, a 500) where ApiRoutes.CreateProjectTicket uses MEDIUM, and `"description": null` stores NULL where the model stores "".
- Date parsing with `datetime.fromisoformat` is abstracted to the `DateField` datatype: absent, a parsed instant, or unparsable.
- Timestamps are the store's integer `clock`, not calendar times, and only these are modelled: a ticket's `created_at` and `updated_at`, a comment's `created_at`, a conversation's `updated_at` and a subscription's `start_date`. SQLAlchemy's `onupdate` on a ticket's `updated_at` is `Models.Flushed`: it fires when a commit changes some column of the row. On a conversation's `updated_at` it fires when the coordinator step attaches the conversation (`ApiRoutes.AttachedTo`) and when the turn retitles it. The default conversation title's `strftime` text is a parameter (`stamp`).
- These timestamp columns have no field in the model, because no modelled operation reads them: `Message.timestamp` (models.py:197); the `created_at` of Project, Agent, Checkpoint, Conversation and Customer (models.py:43, 77, 161, 217, 264); and Project's `updated_at` with its `onupdate` (models.py:46-48).
- ApiRoutes.AddConversationMessage: the image upload and `secure_filename` are file I/O; the image path is an input. The debugging queries of the stored messages only log, and the second attachment check (routes/api_routes.py:656-658) never fires because the conversation was attached already.
- These handlers of routes/api_routes.py are outside the modelled core. They read and render rows: `get_projects`, `get_project`, `get_ticket`, `get_ticket_comments`, `get_project_checkpoints`, `get_checkpoint`, `get_conversations`, `get_recent_conversation`, `get_conversation_messages` and `get_agents`. They insert rows from the request, checking at most that a required field is given: `create_project` (:50-80), `add_ticket_comment` (:353-385), `create_conversation` (:494-531, which also creates a "Default Project" when the table is empty) and `create_agent` (:706-742). `check_ollama_status` calls the network.
- routes/main_routes.py is not part of this model (page rendering only; its completion percentage uses float division).
- payment/stripe_utils.py and Stripe signature verification are Stripe SDK calls. The webhook takes the already decoded event.
- Password hashing and checking are werkzeug calls, modelled as the function parameters `hash` and `check`.
- The real Ollama HTTP client and its error path, which degrades to an apology string, are left out. The shipped mock is modelled, and it does not look at the system prompt or the model name.
- `generate_unique_id`, `save_uploaded_image` and `format_timestamp` in agent_system/utils.py are not modelled: clock, randomness, base64 and file I/O. The regular expression of `extract_structured_data` is left out too; the model takes its list of matches as input.
- Case mapping is ASCII only. Python's `upper()` and `lower()` also map non-ASCII letters.
- Foreign keys are not enforced (SQLite does not enforce them either), so a ticket may name a missing project or agent. The models of the operations check existence exactly where the code does.
- Logging, concurrency and database engine failures (disk, connection) are left out. A rollback is modelled only where the code's own logic or a constraint of the model causes it.
- The canned reply texts are reached through the `Canned` datatype. That the eight texts are pairwise different is not stated: comparing the long literals costs the solver more than that fact is worth.
- TicketSystem.TicketManager.UpdateTicket: the typed patch covers the eight columns a caller edits (title, description, status, priority, due date, project, assignee, parent). `hasattr` is also true for `id`, `created_at`, `updated_at` and the relationships, and setting those is not modelled.
- TicketSystem.PatchComposes and TicketSystem.LastStatusNameWins: Python keyword arguments cannot repeat a key, so an update list a call can produce names each key once; the lemmas cover every list, repeated keys included.
- Agents.Agent.ResetContext: its contract names only the context. The identity and prompt are `const` fields, so staying unchanged comes from the language, not from a stated postcondition.
