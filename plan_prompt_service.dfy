/**
 * backend/services/claude_service.py: the prompt the backend sends to the planning
 * agent, built from the plan, its repository, the current plan artifact, the recent
 * chat history and the new user message, and the error wrapping around the agent call.
 *
 * The artifact is a JSON object (`Some` of a non-empty map is truthy); its rendering
 * by `json.dumps` is the parameter `dumps`. The agent call is the parameter `callAgent`.
 * A chat message whose role is `null` makes `role.title()` raise, so the prompt is
 * built only when every recent message has a missing or string role.
 */
module PlanPromptService {
  import opened Wrappers
  import opened Text

  datatype Plan = Plan(name: string, targetBranch: string, description: Option<string>)

  datatype Repository = Repository(name: string, path: string)

  /** One chat-history dict. */
  datatype ChatEntry = ChatEntry(role: Field, content: Field)

  /** How many of the latest chat messages the prompt shows. */
  const RECENT_WINDOW := 5

  const NO_DESCRIPTION := "No description provided"

  const ARTIFACT_HEADER := "## Current Plan Artifact"

  const CONVERSATION_HEADER := "## Previous Conversation"

  const REQUEST_HEADER := "## Current Request"

  const TITLE_PREFIX := "# Code Planning Session for "

  /** `plan.description or 'No description provided'`. */
  function DescriptionText(description: Option<string>): (r: string)
    ensures Truthy(description) ==> r == description.value
    ensures !Truthy(description) ==> r == NO_DESCRIPTION
    ensures r != ""
  {
    Or(description, Some(NO_DESCRIPTION)).value
  }

  const PROJECT_CONTEXT_HEADER := "## Project Context"

  const REPOSITORY_LABEL := "Repository: "

  const PATH_LABEL := "Path: "

  const BRANCH_LABEL := "Target Branch: "

  const DESCRIPTION_LABEL := "Plan Description: "

  /** The eight project-context lines that open every prompt. */
  function ContextLines(plan: Plan, repository: Repository): seq<string> {
    [TITLE_PREFIX + plan.name,
     "",
     PROJECT_CONTEXT_HEADER,
     REPOSITORY_LABEL + repository.name,
     PATH_LABEL + repository.path,
     BRANCH_LABEL + plan.targetBranch,
     DESCRIPTION_LABEL + DescriptionText(plan.description),
     ""]
  }

  /** Python truthiness of the optional artifact dict. */
  predicate ArtifactPresent<V>(existingArtifact: Option<map<string, V>>) {
    existingArtifact.Some? && |existingArtifact.value| > 0
  }

  /** The artifact block: a fenced JSON rendering of the artifact. */
  function ArtifactLines<V>(existingArtifact: Option<map<string, V>>, dumps: map<string, V> -> string): seq<string> {
    if ArtifactPresent(existingArtifact) then
      [ARTIFACT_HEADER, "```json", dumps(existingArtifact.value), "```", ""]
    else []
  }

  /** `msg.get("role", "unknown").title()` does not raise: the role is missing or a string. */
  predicate HasTitleRole(entry: ChatEntry) {
    !entry.role.Null?
  }

  /** `msg.get("role", "unknown")` for a role that is not `null`. */
  function RoleOf(entry: ChatEntry): string
    requires HasTitleRole(entry)
  {
    if entry.role.Str? then entry.role.text else "unknown"
  }

  /** `msg.get("content", "")` as an f-string shows it: a `null` content reads "None". */
  function ContentOf(entry: ChatEntry): string {
    match entry.content
    case Absent => ""
    case Null => "None"
    case Str(text) => text
  }

  /** One chat message as the prompt shows it: the title-cased role in bold, then the content. */
  function MessageLine(entry: ChatEntry): (r: string)
    requires HasTitleRole(entry)
    ensures var role, content := RoleOf(entry), ContentOf(entry);
      |r| == |role| + 6 + |content| && r[..2] == "**" &&
      r[2..2 + |role|] == Title(role) && Lower(r[2..2 + |role|]) == Lower(role) &&
      r[2 + |role|..6 + |role|] == ":** " && r[6 + |role|..] == content
  {
    var role, content := RoleOf(entry), ContentOf(entry);
    var title := Title(role);
    var r := "**" + title + ":** " + content;
    FourParts("**", title, ":** ", content);
    r
  }

  /** Where each of four concatenated parts sits. */
  lemma FourParts<T>(a: seq<T>, b: seq<T>, c: seq<T>, d: seq<T>)
    ensures var s, i, j, k := a + b + c + d, |a|, |a| + |b|, |a| + |b| + |c|;
      s[..i] == a && s[i..j] == b && s[j..k] == c && s[k..] == d
  {
  }

  function Min(a: int, b: int): int {
    if a < b then a else b
  }

  /** `chat_history[-5:] if len(chat_history) > 5 else chat_history`. */
  function RecentMessages(chatHistory: seq<ChatEntry>): (r: seq<ChatEntry>)
    ensures |r| == Min(RECENT_WINDOW, |chatHistory|)
    ensures r == chatHistory[|chatHistory| - |r|..]
  {
    if |chatHistory| > RECENT_WINDOW then chatHistory[|chatHistory| - RECENT_WINDOW..] else chatHistory
  }

  /** Every message of `messages` can be rendered (stated message by message, as `Rendered` renders). */
  predicate Renderable(messages: seq<ChatEntry>) {
    messages == [] || (Renderable(messages[..|messages| - 1]) && HasTitleRole(messages[|messages| - 1]))
  }

  /** `Renderable` holds exactly when no message has a `null` role. */
  lemma {:induction false} RenderableIffNoNullRole(messages: seq<ChatEntry>)
    ensures Renderable(messages) <==> forall j :: 0 <= j < |messages| ==> HasTitleRole(messages[j])
  {
    if messages != [] {
      var front := messages[..|messages| - 1];
      RenderableIffNoNullRole(front);
      assert forall j :: 0 <= j < |front| ==> front[j] == messages[j];
    }
  }

  /** The prompt can be built: every recent message has a missing or string role. */
  predicate PromptBuilds(chatHistory: seq<ChatEntry>) {
    Renderable(RecentMessages(chatHistory))
  }

  /** Each message's line followed by an empty line, in order. */
  function Rendered(messages: seq<ChatEntry>): (r: seq<string>)
    requires Renderable(messages)
    ensures |r| == 2 * |messages|
  {
    if messages == [] then []
    else Rendered(messages[..|messages| - 1]) + [MessageLine(messages[|messages| - 1]), ""]
  }

  /** The conversation block, present only for a non-empty history. */
  function ConversationLines(chatHistory: seq<ChatEntry>): seq<string>
    requires PromptBuilds(chatHistory)
  {
    if |chatHistory| > 0 then [CONVERSATION_HEADER, ""] + Rendered(RecentMessages(chatHistory)) else []
  }

  /** The fixed instructions after the user message. */
  const INSTRUCTION_LINES: seq<string> :=
    ["## Instructions",
     "You are helping with code planning for this project. Based on the above context:",
     "1. If this is an initial plan, create a comprehensive feature plan",
     "2. If updating an existing plan, refine it based on the user's feedback",
     "3. If the user is asking clarifying questions, provide detailed answers",
     "4. Always consider the codebase context and existing patterns",
     "",
     "Please provide your response as a structured plan with clear implementation steps.",
     "Focus on being practical and actionable for the development team."]

  /** The request block that closes every prompt. */
  function RequestLines(userMessage: string): seq<string> {
    [REQUEST_HEADER, "**User:** " + userMessage, ""] + INSTRUCTION_LINES
  }

  /** The prompt's lines, before they are joined with newlines. */
  function PromptLines<V>(plan: Plan, repository: Repository, existingArtifact: Option<map<string, V>>,
                          dumps: map<string, V> -> string, chatHistory: seq<ChatEntry>, userMessage: string): seq<string>
    requires PromptBuilds(chatHistory)
  {
    ContextLines(plan, repository) + ArtifactLines(existingArtifact, dumps)
    + ConversationLines(chatHistory) + RequestLines(userMessage)
  }

  /**
   * `_build_claude_prompt`: grows the list of prompt parts block by block and joins it;
   * `None` stands for the `AttributeError` a recent message with a `null` role raises.
   */
  method BuildClaudePrompt<V>(plan: Plan, repository: Repository, existingArtifact: Option<map<string, V>>,
                              dumps: map<string, V> -> string, chatHistory: seq<ChatEntry>, userMessage: string)
    returns (prompt: Option<string>)
    ensures prompt.Some? <==> PromptBuilds(chatHistory)
    ensures prompt.Some? ==>
      prompt.value == Join(PromptLines(plan, repository, existingArtifact, dumps, chatHistory, userMessage), "\n")
  {
    var promptParts := ContextLines(plan, repository);
    if ArtifactPresent(existingArtifact) {
      promptParts := promptParts + [ARTIFACT_HEADER, "```json", dumps(existingArtifact.value), "```", ""];
    } else {
      AppendEmpty(promptParts);
    }
    ghost var opening := promptParts;
    assert opening == ContextLines(plan, repository) + ArtifactLines(existingArtifact, dumps);
    if |chatHistory| > 0 {
      promptParts := promptParts + [CONVERSATION_HEADER, ""];
      var recentMessages := if |chatHistory| > RECENT_WINDOW then chatHistory[|chatHistory| - RECENT_WINDOW..] else chatHistory;
      var appended := AppendMessages(promptParts, recentMessages);
      if appended.None? {
        return None;
      }
      promptParts := appended.value;
      AppendAssoc(opening, [CONVERSATION_HEADER, ""], Rendered(recentMessages));
    } else {
      AppendEmpty(opening);
    }
    assert promptParts == opening + ConversationLines(chatHistory);
    promptParts := promptParts + RequestLines(userMessage);
    prompt := Some(Join(promptParts, "\n"));
  }

  /**
   * The loop over the recent messages: a line per message, then an empty line; it stops
   * with `None` at the first message whose `null` role cannot be title-cased.
   */
  method AppendMessages(parts: seq<string>, messages: seq<ChatEntry>) returns (promptParts: Option<seq<string>>)
    ensures promptParts.Some? <==> Renderable(messages)
    ensures promptParts.Some? ==> promptParts.value == parts + Rendered(messages)
  {
    var lines := parts;
    for i := 0 to |messages|
      invariant Renderable(messages[..i])
      invariant lines == parts + Rendered(messages[..i])
    {
      var msg := messages[i];
      if msg.role.Null? {
        RenderableIffNoNullRole(messages);
        return None;
      }
      var role := if msg.role.Str? then msg.role.text else "unknown";
      var content := match msg.content case Absent => "" case Null => "None" case Str(text) => text;
      assert role == RoleOf(msg) && content == ContentOf(msg);
      var line := "**" + Title(role) + ":** " + content;
      assert line == MessageLine(msg);
      RenderedStep(messages, i);
      AppendTwo(parts, Rendered(messages[..i]), line, "");
      lines := lines + [line];
      lines := lines + [""];
    }
    assert messages[..|messages|] == messages;
    return Some(lines);
  }

  /** Rendering one more message of a renderable prefix. */
  lemma RenderedStep(messages: seq<ChatEntry>, i: int)
    requires 0 <= i < |messages| && Renderable(messages[..i]) && HasTitleRole(messages[i])
    ensures Renderable(messages[..i + 1])
    ensures Rendered(messages[..i + 1]) == Rendered(messages[..i]) + [MessageLine(messages[i]), ""]
  {
    assert messages[..i + 1][..i] == messages[..i];
  }

  lemma AppendAssoc<T>(a: seq<T>, b: seq<T>, c: seq<T>)
    ensures a + b + c == a + (b + c)
  {
  }

  lemma AppendEmpty<T>(a: seq<T>)
    ensures a + [] == a
  {
  }

  lemma AppendTwo<T>(a: seq<T>, b: seq<T>, x: T, y: T)
    ensures a + b + [x] + [y] == a + (b + [x, y])
  {
  }

  /** The prompt's lines are its four blocks, in order. */
  lemma PromptBlocks<V>(plan: Plan, repository: Repository, existingArtifact: Option<map<string, V>>,
                        dumps: map<string, V> -> string, chatHistory: seq<ChatEntry>, userMessage: string)
    requires PromptBuilds(chatHistory)
    ensures PromptLines(plan, repository, existingArtifact, dumps, chatHistory, userMessage) ==
      ContextLines(plan, repository) + ArtifactLines(existingArtifact, dumps)
      + ConversationLines(chatHistory) + RequestLines(userMessage)
  {
  }

  /**
   * The prompt opens with the session title naming the plan; the description line
   * falls back to the fixed text when the description is missing or empty.
   */
  lemma ProjectContextOpens<V>(plan: Plan, repository: Repository, existingArtifact: Option<map<string, V>>,
                               dumps: map<string, V> -> string, chatHistory: seq<ChatEntry>, userMessage: string)
    requires PromptBuilds(chatHistory)
    ensures var lines := PromptLines(plan, repository, existingArtifact, dumps, chatHistory, userMessage);
      lines[0] == TITLE_PREFIX + plan.name &&
      StartsWith(Join(lines, "\n"), TITLE_PREFIX + plan.name) &&
      lines[6] == DESCRIPTION_LABEL + (if Truthy(plan.description) then plan.description.value else NO_DESCRIPTION)
  {
    PromptBlocks(plan, repository, existingArtifact, dumps, chatHistory, userMessage);
    var lines := PromptLines(plan, repository, existingArtifact, dumps, chatHistory, userMessage);
    var context := ContextLines(plan, repository);
    assert lines[0] == context[0] && lines[6] == context[6];
    JoinStartsWithFirst(lines, "\n");
  }

  /**
   * The line after the project context opens the artifact block exactly when the
   * artifact is truthy; otherwise it is the conversation or the request header.
   */
  lemma ArtifactBlockIffPresent<V>(plan: Plan, repository: Repository, existingArtifact: Option<map<string, V>>,
                                   dumps: map<string, V> -> string, chatHistory: seq<ChatEntry>, userMessage: string)
    requires PromptBuilds(chatHistory)
    ensures var lines := PromptLines(plan, repository, existingArtifact, dumps, chatHistory, userMessage);
      lines[8] == ARTIFACT_HEADER <==> ArtifactPresent(existingArtifact)
  {
    var context, artifact := ContextLines(plan, repository), ArtifactLines(existingArtifact, dumps);
    var conversation, request := ConversationLines(chatHistory), RequestLines(userMessage);
    PromptBlocks(plan, repository, existingArtifact, dumps, chatHistory, userMessage);
    assert |context| == 8;
    HeadersDistinct();
    if ArtifactPresent(existingArtifact) {
      BlockAt(context, artifact, conversation + request);
      AppendAssoc(context + artifact, conversation, request);
      assert artifact[0] == ARTIFACT_HEADER;
    } else if |chatHistory| > 0 {
      BlockAt(context + artifact, conversation, request);
      assert conversation[0] == CONVERSATION_HEADER;
    } else {
      BlockAt(context + artifact + conversation, request, []);
      AppendEmpty(context + artifact + conversation + request);
      assert request[0] == REQUEST_HEADER;
    }
  }

  /** The three block headers differ. */
  lemma HeadersDistinct()
    ensures ARTIFACT_HEADER != CONVERSATION_HEADER
    ensures ARTIFACT_HEADER != REQUEST_HEADER && CONVERSATION_HEADER != REQUEST_HEADER
  {
    assert ARTIFACT_HEADER[3] != CONVERSATION_HEADER[3];
    assert |ARTIFACT_HEADER| != |REQUEST_HEADER| && |CONVERSATION_HEADER| != |REQUEST_HEADER|;
  }

  /** A truthy artifact is shown as a fenced block of its JSON rendering after the project context. */
  lemma ArtifactBlockShowsJson<V>(plan: Plan, repository: Repository, existingArtifact: Option<map<string, V>>,
                                  dumps: map<string, V> -> string, chatHistory: seq<ChatEntry>, userMessage: string)
    requires ArtifactPresent(existingArtifact) && PromptBuilds(chatHistory)
    ensures var lines := PromptLines(plan, repository, existingArtifact, dumps, chatHistory, userMessage);
      lines[8..13] == [ARTIFACT_HEADER, "```json", dumps(existingArtifact.value), "```", ""]
  {
    PromptBlocks(plan, repository, existingArtifact, dumps, chatHistory, userMessage);
    var context, artifact := ContextLines(plan, repository), ArtifactLines(existingArtifact, dumps);
    var conversation, request := ConversationLines(chatHistory), RequestLines(userMessage);
    assert |context| == 8;
    BlockAt(context, artifact, conversation + request);
    AppendAssoc(context + artifact, conversation, request);
  }

  /** The `j`-th rendered message and its empty line. */
  lemma {:induction false} RenderedAt(messages: seq<ChatEntry>, j: int)
    requires Renderable(messages) && 0 <= j < |messages|
    ensures HasTitleRole(messages[j]) && Rendered(messages)[2 * j] == MessageLine(messages[j])
    ensures Rendered(messages)[2 * j + 1] == ""
  {
    if j < |messages| - 1 {
      RenderedAt(messages[..|messages| - 1], j);
    }
  }

  /**
   * For a non-empty history the conversation block follows the optional artifact block:
   * its header, an empty line, and the rendering of the recent messages (the last
   * min(5, len) of the history, in order, as `RecentMessages` states; each as its line
   * and an empty line, as `RenderedAt` states).
   */
  lemma ConversationBlockShowsRecent<V>(plan: Plan, repository: Repository, existingArtifact: Option<map<string, V>>,
                                        dumps: map<string, V> -> string, chatHistory: seq<ChatEntry>, userMessage: string)
    requires PromptBuilds(chatHistory) && |chatHistory| > 0
    ensures var lines := PromptLines(plan, repository, existingArtifact, dumps, chatHistory, userMessage);
      var start := 8 + |ArtifactLines(existingArtifact, dumps)|;
      start + 2 + 2 * Min(RECENT_WINDOW, |chatHistory|) <= |lines| &&
      lines[start..start + 2 + 2 * Min(RECENT_WINDOW, |chatHistory|)] ==
        [CONVERSATION_HEADER, ""] + Rendered(RecentMessages(chatHistory))
  {
    PromptBlocks(plan, repository, existingArtifact, dumps, chatHistory, userMessage);
    var context, artifact := ContextLines(plan, repository), ArtifactLines(existingArtifact, dumps);
    var conversation, request := ConversationLines(chatHistory), RequestLines(userMessage);
    assert |context| == 8;
    BlockAt(context + artifact, conversation, request);
  }

  /** An empty history leaves the conversation block out: the request block follows at once. */
  lemma NoHistoryNoConversation<V>(plan: Plan, repository: Repository, existingArtifact: Option<map<string, V>>,
                                   dumps: map<string, V> -> string, chatHistory: seq<ChatEntry>, userMessage: string)
    requires PromptBuilds(chatHistory)
    ensures var lines := PromptLines(plan, repository, existingArtifact, dumps, chatHistory, userMessage);
      var start := 8 + |ArtifactLines(existingArtifact, dumps)|;
      lines[start] == CONVERSATION_HEADER <==> |chatHistory| > 0
  {
    PromptBlocks(plan, repository, existingArtifact, dumps, chatHistory, userMessage);
    var context, artifact := ContextLines(plan, repository), ArtifactLines(existingArtifact, dumps);
    var conversation, request := ConversationLines(chatHistory), RequestLines(userMessage);
    assert |context| == 8;
    BlockAt(context + artifact, conversation, request);
    HeadersDistinct();
    if |chatHistory| == 0 {
      BlockAt(context + artifact + conversation, request, []);
      AppendEmpty(context + artifact + conversation + request);
    }
  }

  /** Where a block sits in a concatenation. */
  lemma BlockAt<T>(before: seq<T>, block: seq<T>, after: seq<T>)
    ensures (before + block + after)[|before|..|before| + |block|] == block
    ensures forall k :: 0 <= k < |block| ==> (before + block + after)[|before| + k] == block[k]
  {
    var whole := before + block + after;
    forall k | 0 <= k < |block|
      ensures whole[|before| + k] == block[k]
    {
    }
  }

  /**
   * The request block, the user message and the fixed instructions, always closes the
   * prompt, after every optional block; the prompt's length counts the blocks.
   */
  lemma RequestClosesPrompt<V>(plan: Plan, repository: Repository, existingArtifact: Option<map<string, V>>,
                               dumps: map<string, V> -> string, chatHistory: seq<ChatEntry>, userMessage: string)
    requires PromptBuilds(chatHistory)
    ensures var lines := PromptLines(plan, repository, existingArtifact, dumps, chatHistory, userMessage);
      |lines| == 8 + (if ArtifactPresent(existingArtifact) then 5 else 0)
                   + (if |chatHistory| > 0 then 2 + 2 * Min(RECENT_WINDOW, |chatHistory|) else 0) + 12 &&
      lines[|lines| - 12..] == RequestLines(userMessage) &&
      lines[|lines| - 12] == REQUEST_HEADER &&
      lines[|lines| - 11] == "**User:** " + userMessage &&
      var prompt := Join(lines, "\n");
      var last := INSTRUCTION_LINES[|INSTRUCTION_LINES| - 1];
      |last| <= |prompt| && prompt[|prompt| - |last|..] == last
  {
    PromptLength(plan, repository, existingArtifact, dumps, chatHistory, userMessage);
    RequestTail(plan, repository, existingArtifact, dumps, chatHistory, userMessage);
    PromptEndsWithInstructions(plan, repository, existingArtifact, dumps, chatHistory, userMessage);
  }

  lemma PromptLength<V>(plan: Plan, repository: Repository, existingArtifact: Option<map<string, V>>,
                        dumps: map<string, V> -> string, chatHistory: seq<ChatEntry>, userMessage: string)
    requires PromptBuilds(chatHistory)
    ensures |PromptLines(plan, repository, existingArtifact, dumps, chatHistory, userMessage)| ==
      8 + (if ArtifactPresent(existingArtifact) then 5 else 0)
        + (if |chatHistory| > 0 then 2 + 2 * Min(RECENT_WINDOW, |chatHistory|) else 0) + 12
  {
    PromptBlocks(plan, repository, existingArtifact, dumps, chatHistory, userMessage);
    assert |ContextLines(plan, repository)| == 8;
    assert |RequestLines(userMessage)| == 12 by {
      assert |INSTRUCTION_LINES| == 9;
    }
  }

  lemma RequestTail<V>(plan: Plan, repository: Repository, existingArtifact: Option<map<string, V>>,
                       dumps: map<string, V> -> string, chatHistory: seq<ChatEntry>, userMessage: string)
    requires PromptBuilds(chatHistory)
    ensures var lines := PromptLines(plan, repository, existingArtifact, dumps, chatHistory, userMessage);
      |lines| >= 12 &&
      lines[|lines| - 12..] == RequestLines(userMessage) &&
      lines[|lines| - 12] == REQUEST_HEADER &&
      lines[|lines| - 11] == "**User:** " + userMessage &&
      lines[|lines| - 1] == INSTRUCTION_LINES[|INSTRUCTION_LINES| - 1]
  {
    PromptBlocks(plan, repository, existingArtifact, dumps, chatHistory, userMessage);
    var head := ContextLines(plan, repository) + ArtifactLines(existingArtifact, dumps) + ConversationLines(chatHistory);
    var request := RequestLines(userMessage);
    assert |request| == 12 && request[11] == INSTRUCTION_LINES[8] by {
      assert |INSTRUCTION_LINES| == 9;
    }
    assert (head + request)[|head|..] == request;
  }

  lemma PromptEndsWithInstructions<V>(plan: Plan, repository: Repository, existingArtifact: Option<map<string, V>>,
                                      dumps: map<string, V> -> string, chatHistory: seq<ChatEntry>, userMessage: string)
    requires PromptBuilds(chatHistory)
    ensures var prompt := Join(PromptLines(plan, repository, existingArtifact, dumps, chatHistory, userMessage), "\n");
      var last := INSTRUCTION_LINES[|INSTRUCTION_LINES| - 1];
      |last| <= |prompt| && prompt[|prompt| - |last|..] == last
  {
    PromptBlocks(plan, repository, existingArtifact, dumps, chatHistory, userMessage);
    var lines := PromptLines(plan, repository, existingArtifact, dumps, chatHistory, userMessage);
    RequestTail(plan, repository, existingArtifact, dumps, chatHistory, userMessage);
    JoinEndsWithLast(lines, "\n");
  }

  /** The outcome of the agent call: the chunks it streamed, then the failure that stopped it, if any. */
  datatype AgentRun = AgentRun(chunks: seq<string>, failure: Option<string>)

  /** The context dict `generate_plan` receives; `chat_history` defaults to the empty list. */
  datatype PlanContext<V> = PlanContext(plan: Plan, repository: Repository, existingArtifact: Option<map<string, V>>,
                                        chatHistory: seq<ChatEntry>, userMessage: string)

  const FAILURE_PREFIX := "Claude Code generation failed: "

  /**
   * How `generate_plan` fails: the `AttributeError` of a `null` role, raised while the
   * prompt is built and so not wrapped, or the agent's failure re-raised with the prefix.
   */
  datatype PlanError = RoleAttributeError | GenerationFailed(message: string)

  /**
   * `generate_plan`: builds the prompt, runs the agent in the repository's directory and
   * relays its chunks; a failure of the agent is re-raised with the fixed prefix, while
   * a prompt that cannot be built fails before the agent runs.
   */
  method GeneratePlan<V>(context: PlanContext<V>, dumps: map<string, V> -> string,
                         callAgent: (string, string) -> AgentRun)
    returns (chunks: seq<string>, error: Option<PlanError>)
    ensures !PromptBuilds(context.chatHistory) ==> chunks == [] && error == Some(RoleAttributeError)
    ensures PromptBuilds(context.chatHistory) ==>
      var run := callAgent(Join(PromptLines(context.plan, context.repository, context.existingArtifact, dumps,
                                            context.chatHistory, context.userMessage), "\n"),
                           context.repository.path);
      chunks == run.chunks &&
      (error.Some? <==> run.failure.Some?) &&
      (run.failure.Some? ==> error.value == GenerationFailed(FAILURE_PREFIX + run.failure.value))
  {
    var prompt := BuildClaudePrompt(context.plan, context.repository, context.existingArtifact, dumps,
                                    context.chatHistory, context.userMessage);
    if prompt.None? {
      return [], Some(RoleAttributeError);
    }
    var run := callAgent(prompt.value, context.repository.path);
    chunks := run.chunks;
    match run.failure {
      case None => error := None;
      case Some(e) => error := Some(GenerationFailed(FAILURE_PREFIX + e));
    }
  }
}
