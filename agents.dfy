/**
  agent_system/agents.py. The six role subclasses differ only in their
  role-specific prompt, so one class is parameterised by the role. The
  inference client is the mock of OllamaClient, a pure function of the
  system prompt, the context and the image path.
*/
module Agents {
  import opened Wrappers
  import opened Strings
  import opened Models
  import opened OllamaClient

  /** `_get_role_specific_prompt` of each role's subclass. */
  const CoordinatorLines: seq<string> := [
      "Your role is to coordinate the work of all other agents. You assign tasks, monitor progress, and ensure that the project is moving forward. You should:",
      "1. Break down user requirements into manageable tasks",
      "2. Assign tickets to appropriate agents based on their roles",
      "3. Monitor the status of all tickets and update checkpoints",
      "4. Identify blockers and help resolve them",
      "5. Provide progress updates to the user",
      "When communicating with the user, be clear about the project status, next steps, and any issues."]
  const PlannerLines: seq<string> := [
      "Your role is to create detailed plans and specifications for the project. You should:",
      "1. Analyze user requirements and create a project roadmap",
      "2. Break down large tasks into smaller, manageable tickets",
      "3. Define checkpoints and milestones for the project",
      "4. Estimate effort and complexity for tasks",
      "5. Identify dependencies between tasks",
      "Your plans should be detailed, clear, and actionable. Focus on creating a structured approach to completing the project."]
  const ResearcherLines: seq<string> := [
      "Your role is to research information needed for the project. You should:",
      "1. Gather information about technologies, tools, and best practices relevant to the project",
      "2. Analyze technical feasibility of approaches",
      "3. Research solutions to technical challenges",
      "4. Provide detailed research reports with recommendations",
      "5. Support other agents with specific information they need",
      "Your research should be thorough, accurate, and directly applicable to the project at hand."]
  const DeveloperLines: seq<string> := [
      "Your role is to develop code and technical solutions for the project. You should:",
      "1. Write clean, maintainable code that meets requirements",
      "2. Implement features according to specifications",
      "3. Refactor code as needed to improve quality",
      "4. Solve technical problems encountered during development",
      "5. Document your code and implementation decisions",
      "Your code should follow best practices and be well-structured. Consider security, performance, and maintainability."]
  const TesterLines: seq<string> := [
      "Your role is to test code and solutions for quality and correctness. You should:",
      "1. Create test plans for features and components",
      "2. Identify edge cases and potential issues",
      "3. Report bugs and issues in a clear, reproducible manner",
      "4. Verify that implementations meet requirements",
      "5. Suggest improvements to quality and reliability",
      "Your testing should be thorough and help improve the overall quality of the project."]
  const ReviewerLines: seq<string> := [
      "Your role is to review work from other agents and provide constructive feedback. You should:",
      "1. Review code, documents, and other outputs from agents",
      "2. Identify issues, errors, and areas for improvement",
      "3. Provide specific, actionable feedback",
      "4. Ensure that work meets project requirements and quality standards",
      "5. Approve work that meets standards or request changes",
      "Your reviews should be thorough but constructive. Focus on helping improve the quality of the project."]

  /** The lines of the role-specific prompt. */
  function RolePromptLines(role: AgentRole): seq<string> {
    match role
    case Coordinator => CoordinatorLines
    case Planner => PlannerLines
    case Researcher => ResearcherLines
    case Developer => DeveloperLines
    case Tester => TesterLines
    case Reviewer => ReviewerLines
  }

  /** `lines` joined by newlines. */
  function JoinLines(lines: seq<string>): string {
    if lines == [] then ""
    else if |lines| == 1 then lines[0]
    else lines[0] + "\n" + JoinLines(lines[1..])
  }

  function RoleSpecificPrompt(role: AgentRole): string {
    JoinLines(RolePromptLines(role))
  }

  const TicketSystemSentence := "You are working with other agents to complete projects through a ticket system. "

  /** The base prompt naming the agent and its role's value. */
  function BasePrompt(name: string, role: AgentRole): string {
    "You are " + name + ", a " + RoleValue(role) + " agent in a multi-agent system. " + TicketSystemSentence
  }

  /** `_get_system_prompt`: the base prompt followed by the role-specific text. */
  function SystemPrompt(name: string, role: AgentRole): string {
    BasePrompt(name, role) + RoleSpecificPrompt(role)
  }

  /** Which client call `process_message` makes: `generate_with_image` for a truthy image path,
      `generate` otherwise. */
  function ClientReply(systemPrompt: string, context: seq<ChatMessage>, imagePath: Option<string>): string {
    if Truthy(imagePath) then GenerateWithImage(systemPrompt, context, imagePath.value)
    else Generate(systemPrompt, context)
  }

  /** The two context entries one exchange adds: the user turn, then the reply. */
  function Exchange(message: string, reply: string): seq<ChatMessage> {
    [Entry("user", message), Entry("assistant", reply)]
  }

  /** `BaseAgent`: identity and prompt fixed at construction, and a context that only grows until reset. */
  class Agent {
    const agentId: int
    const name: string
    const role: AgentRole
    const model: string
    const systemPrompt: string
    var context: seq<ChatMessage>

    constructor (agentId: int, name: string, role: AgentRole, model: string)
      ensures this.agentId == agentId && this.name == name && this.role == role && this.model == model
      ensures systemPrompt == SystemPrompt(name, role)
      ensures context == []
    {
      this.agentId := agentId;
      this.name := name;
      this.role := role;
      this.model := model;
      this.systemPrompt := SystemPrompt(name, role);
      this.context := [];
    }

    /** `process_message`: append the user turn, ask the client with the whole context, append the reply. */
    method ProcessMessage(message: string, imagePath: Option<string>) returns (reply: string)
      modifies this`context
      ensures reply == ClientReply(systemPrompt, old(context) + [Entry("user", message)], imagePath)
      ensures context == old(context) + Exchange(message, reply)
    {
      context := context + [Entry("user", message)];
      if Truthy(imagePath) {
        reply := GenerateWithImage(systemPrompt, context, imagePath.value);
      } else {
        reply := Generate(systemPrompt, context);
      }
      context := context + [Entry("assistant", reply)];
    }

    /** `reset_context` */
    method ResetContext()
      modifies this`context
      ensures context == []
    {
      context := [];
    }
  }

  // ---------------------------------------------------------------------------
  // Properties

  /** The mock's answer to a user turn after any history: the image reply for a truthy image
      path, otherwise the keyword reply to the message. */
  function TurnReply(message: string, imagePath: Option<string>): string {
    if Truthy(imagePath) then ImageReply(Basename(imagePath.value)) else KeywordReply(message)
  }

  /** `reply` is the mock's answer to a turn with that message and image path. Stated for every
      path equal to `imagePath`, so that the long canned texts enter a proof only where it asks
      about the reply itself. */
  predicate RepliesTo(reply: string, message: string, imagePath: Option<string>) {
    forall p :: p == imagePath ==> reply == TurnReply(message, p)
  }

  lemma RepliesToIsTurnReply(reply: string, message: string, imagePath: Option<string>)
    ensures RepliesTo(reply, message, imagePath) <==> reply == TurnReply(message, imagePath)
  {
  }

  /** Because the client always sees the just-added user turn last, the reply is decided by the
      message and the image path alone, whatever the prompt and the earlier history. */
  lemma {:induction false} ReplyDecidedByMessage(systemPrompt: string, context: seq<ChatMessage>, message: string, imagePath: Option<string>)
    ensures ClientReply(systemPrompt, context + [Entry("user", message)], imagePath) == TurnReply(message, imagePath)
  {
    var h := context + [Entry("user", message)];
    assert h != [] && h[|h| - 1] == Entry("user", message);
    if Truthy(imagePath) {
      assert ClientReply(systemPrompt, h, imagePath) == GenerateWithImage(systemPrompt, h, imagePath.value);
    } else {
      assert LastUserContent(h) == message;
      assert ClientReply(systemPrompt, h, imagePath) == Generate(systemPrompt, h);
    }
  }

  /** The base prompt opens with the agent's name and states the role's value. */
  lemma BasePromptNamesAgentAndRole(name: string, role: AgentRole)
    ensures StartsWith(SystemPrompt(name, role), "You are " + name)
    ensures Contains(SystemPrompt(name, role), RoleValue(role))
  {
    OpeningNamesAgentAndRole(name, role, RoleSpecificPrompt(role));
  }

  /** Whatever follows it, the base prompt puts the name first and the role's value after it. */
  lemma OpeningNamesAgentAndRole(name: string, role: AgentRole, rest: string)
    ensures StartsWith(BasePrompt(name, role) + rest, "You are " + name)
    ensures Contains(BasePrompt(name, role) + rest, RoleValue(role))
  {
    var head := "You are " + name;
    var tail := " agent in a multi-agent system. " + TicketSystemSentence + rest;
    var p := BasePrompt(name, role) + rest;
    assert p == head + ", a " + RoleValue(role) + tail;
    assert p[..|head|] == head;
    ContainsMiddle(head + ", a ", RoleValue(role), tail);
  }
}
