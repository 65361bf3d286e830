/**
  agent_system/ollama_client.py as deployed: the HTTP call is replaced by a
  mock that picks a canned reply by keyword. A message is a Python dict
  from string keys to string values; `.get(key, default)` is Get.
  The model name and base URL the client stores are unused by the mock.
*/
module OllamaClient {
  import opened Strings

  type ChatMessage = map<string, string>

  function Get(m: ChatMessage, key: string, default: string): string {
    if key in m then m[key] else default
  }

  /** The dict `{"role": role, "content": content}`. */
  function Entry(role: string, content: string): (e: ChatMessage)
    ensures e.Keys == {"role", "content"} && e["role"] == role && e["content"] == content
  {
    map["role" := role, "content" := content]
  }

  /** The mock's fixed replies. */
  datatype Canned = Greeting | Help | Project | Task | Research | Develop | Default | ImageGreeting

  function CannedText(c: Canned): string {
    match c
    case Greeting => "Hello! I'm the Fractalyx Coordinator. How can I help you today?"
    case Help => "I'm here to help! As the Fractal Intelligence Coordinator, I can assist with project planning, task management, research, and development support. What would you like to work on today?"
    case Project => "I'd be happy to help with your project! To get started, I'll need to understand your goals. Could you tell me more about what you're trying to build, and what your key requirements are?"
    case Task => "Creating tasks is a great way to organize your project. Each task should be specific, measurable, and have a clear definition of done. Would you like me to help you break down your project into manageable tasks?"
    case Research => "Research is crucial for informed decisions. I can help gather information on technologies, methodologies, or industry trends related to your project. What specific topic would you like me to research?"
    case Develop => "For development work, I can help plan the architecture, suggest technologies, and even generate code snippets. What are you trying to build?"
    case Default => "I've received your message. As your Fractal Intelligence Coordinator, I'm here to help with any aspect of your project. Could you provide more specific details about what you're working on, so I can offer more targeted assistance?"
    case ImageGreeting => "I can see you've shared an image with me. How can I help with this?"
  }

  /** The reply to a shared image when there is history: it quotes the file name. */
  function ImageReply(filename: string): string {
    "I've received your image '" + filename
    + "'. As your Fractal Intelligence Coordinator, I can analyze this visual information to assist with your project. Could you tell me more about what you'd like me to do with this image?"
  }

  /** The text the mock inspects: the last entry's content if its role is "user", else "". */
  function LastUserContent(messages: seq<ChatMessage>): string
    requires messages != []
  {
    var m := messages[|messages| - 1];
    if "role" in m && m["role"] == "user" then Get(m, "content", "") else ""
  }

  /** The keyword dispatch of `generate` on a message text: which canned reply it returns. */
  function KeywordChoice(text: string): Canned {
    var t := Lower(text);
    if Contains(t, "help") then Help
    else if Contains(t, "project") || Contains(t, "plan") then Project
    else if Contains(t, "task") || Contains(t, "ticket") then Task
    else if Contains(t, "research") then Research
    else if Contains(t, "code") || Contains(t, "develop") then Develop
    else Default
  }

  function KeywordReply(text: string): string {
    CannedText(KeywordChoice(text))
  }

  /** `generate(system_prompt, messages)` */
  function Generate(systemPrompt: string, messages: seq<ChatMessage>): string {
    if messages == [] then CannedText(Greeting) else KeywordReply(LastUserContent(messages))
  }

  /** `generate_with_image(system_prompt, messages, image_path)` */
  function GenerateWithImage(systemPrompt: string, messages: seq<ChatMessage>, imagePath: string): string {
    if messages == [] then CannedText(ImageGreeting) else ImageReply(Basename(imagePath))
  }

  /** `f` is what `_format_messages` makes of `m`: its role mapped to "assistant" or "user"
      (only "assistant" is kept) and its content kept ("" when absent). */
  predicate FormattedFrom(f: ChatMessage, m: ChatMessage) {
    && f.Keys == {"role", "content"}
    && f["role"] in {"user", "assistant"}
    && (f["role"] == "assistant" <==> Get(m, "role", "user") == "assistant")
    && f["content"] == Get(m, "content", "")
  }

  /** `_format_messages`: the system prompt first, then each message with its role mapped to
      "assistant" or "user" and its content kept ("" when absent). */
  method FormatMessages(systemPrompt: string, messages: seq<ChatMessage>) returns (formatted: seq<ChatMessage>)
    ensures |formatted| == |messages| + 1
    ensures formatted[0] == Entry("system", systemPrompt)
    ensures forall i :: 0 <= i < |messages| ==> FormattedFrom(formatted[i + 1], messages[i])
  {
    formatted := [Entry("system", systemPrompt)];
    var i := 0;
    while i < |messages|
      invariant 0 <= i <= |messages|
      invariant |formatted| == i + 1
      invariant formatted[0] == Entry("system", systemPrompt)
      invariant forall k :: 0 <= k < i ==> FormattedFrom(formatted[k + 1], messages[k])
    {
      var role := Get(messages[i], "role", "user");
      var content := Get(messages[i], "content", "");
      var ollamaRole := if role == "assistant" then "assistant" else "user";
      formatted := formatted + [Entry(ollamaRole, content)];
      i := i + 1;
    }
  }

  // ---------------------------------------------------------------------------
  // Properties

  /** The precedence of the keywords, each canned reply characterised in both directions. */
  lemma KeywordPrecedence(text: string)
    ensures var t := Lower(text);
      && (KeywordChoice(text) == Help <==> Contains(t, "help"))
      && (KeywordChoice(text) == Project <==>
            !Contains(t, "help") && (Contains(t, "project") || Contains(t, "plan")))
      && (KeywordChoice(text) == Task <==>
            !Contains(t, "help") && !Contains(t, "project") && !Contains(t, "plan")
            && (Contains(t, "task") || Contains(t, "ticket")))
      && (KeywordChoice(text) == Research <==>
            !Contains(t, "help") && !Contains(t, "project") && !Contains(t, "plan")
            && !Contains(t, "task") && !Contains(t, "ticket") && Contains(t, "research"))
      && (KeywordChoice(text) == Develop <==>
            !Contains(t, "help") && !Contains(t, "project") && !Contains(t, "plan")
            && !Contains(t, "task") && !Contains(t, "ticket") && !Contains(t, "research")
            && (Contains(t, "code") || Contains(t, "develop")))
      && (KeywordChoice(text) == Default <==>
            !Contains(t, "help") && !Contains(t, "project") && !Contains(t, "plan")
            && !Contains(t, "task") && !Contains(t, "ticket") && !Contains(t, "research")
            && !Contains(t, "code") && !Contains(t, "develop"))
    ensures KeywordChoice(text) !in {Greeting, ImageGreeting}
  {
  }

  /** An empty history is greeted with the fixed greeting. */
  lemma EmptyHistoryGreets(systemPrompt: string)
    ensures Generate(systemPrompt, []) == "Hello! I'm the Fractalyx Coordinator. How can I help you today?"
  {
  }

  /** The reply depends on the last entry only: not on the system prompt, nor on earlier turns. */
  lemma ReplyDependsOnLastEntry(p1: string, h1: seq<ChatMessage>, p2: string, h2: seq<ChatMessage>)
    requires h1 != [] && h2 != [] && h1[|h1| - 1] == h2[|h2| - 1]
    ensures Generate(p1, h1) == Generate(p2, h2)
    ensures forall path :: GenerateWithImage(p1, h1, path) == GenerateWithImage(p2, h2, path)
  {
  }

  /** A last entry whose role is not "user" gets the default reply. */
  lemma NonUserLastEntryGetsDefault(systemPrompt: string, messages: seq<ChatMessage>)
    requires messages != []
    requires var m := messages[|messages| - 1]; !("role" in m && m["role"] == "user")
    ensures Generate(systemPrompt, messages) == CannedText(Default)
  {
    assert LastUserContent(messages) == "";
    assert Lower("") == "";
    assert KeywordChoice("") == Default;
  }

  /** With a non-empty history the image reply names the image's file, whatever the message says. */
  lemma ImageReplyNamesFile(systemPrompt: string, messages: seq<ChatMessage>, imagePath: string)
    requires messages != []
    ensures Contains(GenerateWithImage(systemPrompt, messages, imagePath), Basename(imagePath))
    ensures '/' !in Basename(imagePath)
  {
    ImageReplyQuotes(Basename(imagePath));
    BasenameIsLastComponent(imagePath);
  }

  /** The image reply quotes the file name it is given. */
  lemma ImageReplyQuotes(filename: string)
    ensures Contains(ImageReply(filename), filename)
  {
    var r := ImageReply(filename);
    assert r[26..26 + |filename|] == filename;
    ContainsAt(r, filename, 26);
  }
}
