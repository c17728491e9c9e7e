# Plan-generation core of codeverse-hack, in Dafny

This project models the text and sequence logic of the plan-generation backend of
codeverse-hack, and proves what that logic promises. The backend asks a coding agent for
an implementation plan, relays the agent's streamed answer to the browser, and stores the
plan as a new version.

The model covers six source files, one or two Dafny modules each:

- `Wrappers`, `Text` (text.dfy): the Python string built-ins the core relies on, on
  ASCII text. These are `str.lower`, `str.strip`, `str.title`, `str.split`, `str.join`,
  `in` on strings, `a or b` and Python truthiness. Each comes with the laws the other
  modules use.
- `ClaudePrompts` (claude_prompts.dfy), from backend/services/claude_prompts.py:
  - the output-section registry (plan name, plan draft, clarifying questions), its sort
    by rank, lookup by name and by exact header, and the longest header;
  - the output types named after the sections;
  - the system prompt for a first and for a refinement iteration;
  - the vocabulary prompt with its optional repository hint.
- `ClaudeScript` (claude_script.dfy), from backend/services/claude_script.py: the
  extractor that splits a full answer into plan name, plan and questions. It is a
  `method` with a `for` loop, proved against the functions `CurrentAfter`
  (`current_section`) and `Collected` (each list the loop appends to).
- `AgentStream` (agent_stream.dfy), from claude_service.py and
  backend/claude_service.py: the result-stream filter with its `saw_any_delta` flag.
  - `QueryClaudeStream` is the loop, proved against `Filtered`.
  - The two files hold the same filter line for line (claude_service.py:49-85 and
    backend/claude_service.py:29-65), so it is modelled once. The lemmas about it hold
    for both copies.
  - `RootClaudeService.GeneratePlan` and `BackendClaudeService.GeneratePlan` are the
    two `generate_plan` pass-throughs, each with its own system prompt.
- `PlanPromptService` (plan_prompt_service.dfy), from
  backend/services/claude_service.py: `_build_claude_prompt`, which grows a list of
  prompt parts block by block and joins it, and the error wrapping in `generate_plan`.
  A recent chat message with a `null` role makes `role.title()` raise before the agent
  is called; that failure is modelled, and it is not wrapped.
- `BusinessRouter` (business_router.dfy), from backend/routers/business.py:
  - the plan-generation endpoint: request validation, plan and repository lookup,
    choice of the current plan artifact, and the search for the last assistant message;
  - `stream_response`, which relays the generator's `(output_type, chunk)` pairs as
    events, accumulates the plan chunks, falls back to a fixed plan when nothing came,
    stores the stripped plan as version latest+1, and closes with exactly one
    `complete` or `error` event.

Whatever the code cannot see becomes a parameter:
- the agent (a function from working directory, system prompt and prompt to a finite
  message sequence and the exception, if any, that ended it);
- the chunk generator the router consumes (a function to the pairs it yields and the
  failure that ended it, if any);
- `json.dumps` of the artifact;
- the database (maps of plans and repositories, and the plan's existing version numbers).

Python's `sorted` is stable and the registry is already in rank order. `sorted` is
modelled as a stable insertion sort.

The generator the router calls is imported at backend/routers/business.py:14 from
backend/services/claude_service.py. The `generate_plan` there takes a single context dict
(backend/services/claude_service.py:12) and yields strings, not pairs. The model
therefore keeps the router's generator abstract and does not connect it to
`PlanPromptService.GeneratePlan`.

## Model

| member | source | states |
|---|---|---|
| Text.Or | claude_service.py:77 | `a or b` on optional strings: `a` when it is a non-empty string, else `b`; the result is truthy iff either is |
| Text.Lower | backend/services/claude_script.py:141 | lower-casing keeps the length and maps each character through the ASCII lower-case map |
| Text.Strip | backend/services/claude_script.py:141 | `strip()` is the slice left after dropping white space at both ends; only white space lies outside it, and a non-empty result starts and ends with a non-space |
| Text.StripEmptyIffBlank | backend/routers/business.py:95 | `s.strip()` is empty exactly when every character of `s` is white space |
| Text.ContainsStrip | backend/services/claude_script.py:141-143 | stripping never changes whether a phrase that starts and ends with a non-space occurs in a line |
| Text.Split | backend/services/claude_script.py:133 | `split("\n")` returns at least one piece, and no piece holds the separator |
| Text.JoinSplit | backend/services/claude_script.py:133 | joining the pieces of a split with the separator gives back the original string |
| Text.SplitJoin | backend/services/claude_script.py:133 | splitting a join of separator-free pieces gives back the pieces |
| Text.JoinBlank | backend/services/claude_script.py:160-162 | joining blank lines with a newline gives a blank string |
| Text.JoinStartsWithFirst | backend/services/claude_service.py:107 | a `"\n".join` starts with its first part |
| Text.JoinEndsWithLast | backend/services/claude_service.py:107 | a `"\n".join` ends with its last part |
| Text.JoinContainsPart | backend/services/claude_prompts.py:142-172 | every part of a join occurs in the joined text |
| Text.NatToString | backend/services/claude_prompts.py:205 | `str(n)` of a natural number is a non-empty string of decimal digits with no leading zero |
| Text.NatToStringValue | backend/services/claude_prompts.py:205 | reading the digits of `str(n)` back gives `n` |
| Text.IntToString | backend/services/claude_prompts.py:205 | `str(i)` starts with `-` exactly when `i` is negative, and after that optional sign it is `str` of the magnitude of `i` |
| Text.IntToStringValue | backend/services/claude_prompts.py:205 | the part of `str(i)` after the optional sign is a non-empty string of decimal digits, with no leading zero unless `i` is 0, whose value is the magnitude of `i` |
| Text.Title | backend/services/claude_service.py:86 | `title()` keeps the length and every non-letter; a letter is upper case exactly when no letter comes just before it, and lower case otherwise |
| ClaudePrompts.InsertByOrder | backend/services/claude_prompts.py:48 | inserting into a rank-sorted list keeps it sorted and adds exactly the one element |
| ClaudePrompts.SortByOrder | backend/services/claude_prompts.py:48 | `sorted(..., key=order)` returns a rank-sorted permutation of its input |
| ClaudePrompts.SortRanked | backend/services/claude_prompts.py:48 | three sections already in rank order are returned unchanged |
| ClaudePrompts.SortRegistry | backend/services/claude_prompts.py:46-48 | sorting the three declared sections keeps their declaration order |
| ClaudePrompts.AllSections | backend/services/claude_prompts.py:27-48 | `get_all_sections` is exactly plan name, plan, clarifying questions, in that order |
| ClaudePrompts.AllSectionsRanked | backend/services/claude_prompts.py:27-48 | the registry is sorted by rank, and the section at position i has rank i+1 |
| ClaudePrompts.RegisteredIsDeclared | backend/services/claude_prompts.py:46-48 | the registry holds the three declared sections and nothing else |
| ClaudePrompts.NameIndex | backend/services/claude_prompts.py:53 | the name dictionary has a key exactly for each section's name, and maps it to a section with that name |
| ClaudePrompts.SectionByName | backend/services/claude_prompts.py:50-54 | lookup by name returns a registered section with that name, or None when no section has it |
| ClaudePrompts.SectionByNameDomain | backend/services/claude_prompts.py:50-54 | lookup by name succeeds exactly for `plan_name`, `plan` and `clarify_questions` |
| ClaudePrompts.FirstWithHeader | backend/services/claude_prompts.py:59-62 | the loop returns a section of the list whose header equals the argument, or None when none has it |
| ClaudePrompts.SectionByHeader | backend/services/claude_prompts.py:56-62 | lookup by header returns a registered section with exactly that header, or None |
| ClaudePrompts.SectionByHeaderDomain | backend/services/claude_prompts.py:56-62 | lookup by header succeeds exactly for the three headers as written: no prefix match and no case folding |
| ClaudePrompts.SectionsDistinct | backend/services/claude_prompts.py:27-43 | no two registered sections share a name or a header |
| ClaudePrompts.NameLookupRoundTrip | backend/services/claude_prompts.py:50-54 | looking up a registered section's name returns that section |
| ClaudePrompts.HeaderLookupRoundTrip | backend/services/claude_prompts.py:56-62 | looking up a registered section's header returns that section |
| ClaudePrompts.LookupRoundTrip | backend/services/claude_prompts.py:27-62 | both lookups return every registered section from its own name and its own header |
| ClaudePrompts.MaxHeaderLengthOf | backend/services/claude_prompts.py:67 | the maximum over a non-empty list bounds every header length and is attained by one |
| ClaudePrompts.MaxHeaderLength | backend/services/claude_prompts.py:64-67 | `get_max_header_length` is at least every registered header's length and equals one of them |
| ClaudePrompts.MaxHeaderLengthIsClarifyHeader | backend/services/claude_prompts.py:38-67 | the longest header is `# Clarifying questions`, 22 characters |
| ClaudePrompts.OutputTypeMatchesSection | backend/services/claude_prompts.py:70-75 | each output type's value is the name of the same-named registered section, and looks that section up |
| ClaudePrompts.OutputTypeValuesDistinct | backend/services/claude_prompts.py:70-75 | no two output types share a value |
| ClaudePrompts.Quoted | backend/services/claude_prompts.py:147 | a quoted header is the header between two backticks |
| ClaudePrompts.HeaderRulesQuoteHeaders | backend/services/claude_prompts.py:147-152 | the first-line rule, the plan rule and the questions rule each quote their header |
| ClaudePrompts.SystemPromptContract | backend/services/claude_prompts.py:142-172 | for either iteration and any surrounding wording, the prompt contains the first-line rule and quotes every registered header |
| ClaudePrompts.SystemPromptQuotesHeaders | backend/services/claude_prompts.py:107-172 | `build_system_prompt`, for a first and for a refinement iteration, contains the first-line rule and quotes every registered header |
| ClaudePrompts.VocabHintLine | backend/services/claude_prompts.py:185-205 | a non-empty hint inserts the single line `- optional_repo_hint: <hint>` between introduction and caps, and the joined prompt contains it; a missing or empty hint inserts nothing |
| ClaudeScript.HeaderSection | backend/services/claude_script.py:141-151 | a line opens a section only if it starts with `#` |
| ClaudeScript.HeaderSectionSpec | backend/services/claude_script.py:141-151 | a line opens plan name, plan or questions exactly when it starts with `#` and its lower-cased text contains that phrase and none of the phrases checked before it |
| ClaudeScript.PlanNameHeaderSpec | backend/services/claude_script.py:143-145 | the plan-name test, as an if-and-only-if on the lower-cased line |
| ClaudeScript.PlanHeaderSpec | backend/services/claude_script.py:146-148 | the plan-draft test, which applies only when the plan-name test fails |
| ClaudeScript.QuestionsHeaderSpec | backend/services/claude_script.py:149-151 | the clarifying-questions test, which applies only when both earlier tests fail |
| ClaudeScript.HeaderSectionIgnoresCase | backend/services/claude_script.py:141-149 | lower-casing a line never changes whether or which header it is |
| ClaudeScript.SameHeaderSection | backend/services/claude_script.py:141-149 | two lines with the same lower-cased text and the same leading `#` test classify alike |
| ClaudeScript.IndentedHeaderIsText | backend/services/claude_script.py:143-149 | a line whose first character is not `#` is never a header, whatever it contains |
| ClaudeScript.RegisteredHeadersOpenSections | backend/services/claude_script.py:143-151 | the three registry headers open their own sections |
| ClaudeScript.CurrentAfter | backend/services/claude_script.py:138-151 | the section in force is one some earlier header line opened |
| ClaudeScript.Collected | backend/services/claude_script.py:140-158 | a section never collects more lines than were read |
| ClaudeScript.Finish | backend/services/claude_script.py:160-162 | a section's result is None exactly when it collected no lines |
| ClaudeScript.ExtractPlanNameAndSections | backend/services/claude_script.py:128-164 | the loop computes, for each section, the joined and stripped lines `Collected` assigns it, or None |
| ClaudeScript.PreambleDropped | backend/services/claude_script.py:138-158 | lines before the first header belong to no section, and nothing is collected from them |
| ClaudeScript.AfterHeader | backend/services/claude_script.py:140-158 | after a header, every later non-header line goes, in order, to that header's section and no other; a repeated header re-opens its section and appends |
| ClaudeScript.NoHeaderCopied | backend/services/claude_script.py:143-151 | no header line is ever collected into a section |
| ClaudeScript.NoHeadersNoSections | backend/services/claude_script.py:133-164 | output with no header line gives `(None, None, None)` |
| ClaudeScript.BlankSectionIsEmpty | backend/services/claude_script.py:160-162 | a section whose collected lines are all blank yields `""`, not None |
| ClaudeScript.LayoutSection | backend/services/claude_script.py:140-158 | in the answer layout, each section holds exactly the lines under its own header |
| ClaudeScript.LayoutReadBack | backend/services/claude_script.py:140-158 | for any classifier recognising the three headers, the layout reads back as name plus blank line, plan lines and question lines |
| ClaudeScript.FormattedAnswerReadBack | backend/services/claude_script.py:128-164 | an answer in the format the system prompt asks for is read back into its name, plan and questions when no user line is itself a header |
| ClaudeScript.FormattedTextReadBack | backend/services/claude_script.py:128-164 | the text of such an answer, joined with newlines, gives through the extractor's results the stripped name, the stripped plan lines and the stripped question lines, or None for an empty plan or question list |
| AgentStream.Emitted | claude_service.py:68-85 | a message yields at most one non-empty text; a delta message yields its `delta or result_delta`; a non-result message yields nothing |
| AgentStream.Filtered | claude_service.py:60-85 | the filter yields at most one text per message, each non-empty |
| AgentStream.QueryClaudeStream | claude_service.py:49-85 | the loop with its mutable flag yields exactly `Filtered` of the stream, which equals the front-to-back generator reading |
| AgentStream.SawDeltaSome | claude_service.py:60-81 | the flag is up exactly when some message so far carried a delta |
| AgentStream.FlagNeverReset | claude_service.py:60-79 | once the flag is up it stays up, whatever follows |
| AgentStream.FilterSplit | claude_service.py:61-85 | the output of a stream is the output of its prefix followed by the output of the rest, from the flag the prefix left |
| AgentStream.ReadFromStart | claude_service.py:60-85 | the back-to-front definition and the front-to-back generator yield the same texts |
| AgentStream.NonResultIsSilent | claude_service.py:68-85 | an error message, or any message that is not a result, yields nothing and leaves the flag alone, whatever its error text |
| AgentStream.DeltaIsForwarded | claude_service.py:76-81 | a delta message yields exactly `delta` (else `result_delta`) and raises the flag |
| AgentStream.ResultOnlyBeforeAnyDelta | claude_service.py:83-85 | a result message without a delta yields its result iff the result is non-empty and no earlier message carried a delta |
| AgentStream.AfterDeltaOnlyDeltas | claude_service.py:76-85 | after any delta only deltas are yielded, so no later result ever is; deltas after a result are still forwarded |
| AgentStream.RaisedFlagYieldsDeltas | claude_service.py:76-85 | with the flag up, the filter yields exactly the delta texts |
| RootClaudeService.GeneratePlan | claude_service.py:88-103 | `generate_plan` yields exactly the filtered messages of the agent run on the raw notes with this file's system prompt, then passes on the run's exception, unwrapped, if there was one; it ignores the last two parameters |
| BackendClaudeService.GeneratePlan | backend/claude_service.py:68-83 | the same pass-through, failure included, with this file's shorter system prompt, over the identical filter at backend/claude_service.py:29-65 |
| PlanPromptService.DescriptionText | backend/services/claude_service.py:69 | the description line shows the description when it is non-empty, else `No description provided` |
| PlanPromptService.MessageLine | backend/services/claude_service.py:84-86 | for a role that is missing (shown as `unknown`) or a string, a message line is `**`, exactly `Title` of the role, `:** ` and the content: empty when missing, `None` when null, else verbatim |
| PlanPromptService.RecentMessages | backend/services/claude_service.py:82 | the recent window is the last min(5, len) messages of the history, in order |
| PlanPromptService.RenderableIffNoNullRole | backend/services/claude_service.py:83-86 | the messages can be rendered exactly when none of them has a null role |
| PlanPromptService.Rendered | backend/services/claude_service.py:83-87 | each message contributes exactly two lines |
| PlanPromptService.RenderedAt | backend/services/claude_service.py:83-87 | in renderable messages the j-th message has a title-able role, and its line is at position 2j, followed by an empty line |
| PlanPromptService.AppendMessages | backend/services/claude_service.py:83-87 | the loop appends each message's line and an empty line, in order, and fails exactly when some message has a null role, whose `title()` raises |
| PlanPromptService.BuildClaudePrompt | backend/services/claude_service.py:51-107 | the prompt fails exactly when a recent message has a null role; otherwise the in-place list building and the final join produce the block layout `PromptLines` joined with newlines |
| PlanPromptService.ProjectContextOpens | backend/services/claude_service.py:62-69 | the prompt starts with `# Code Planning Session for ` and the plan name, and the description line falls back to the fixed text |
| PlanPromptService.ArtifactBlockIffPresent | backend/services/claude_service.py:74-75 | the artifact block header follows the project context iff the artifact is truthy |
| PlanPromptService.ArtifactBlockShowsJson | backend/services/claude_service.py:74-75 | a truthy artifact is shown as a fenced block of its JSON rendering |
| PlanPromptService.ConversationBlockShowsRecent | backend/services/claude_service.py:78-87 | a non-empty history adds its header, an empty line and the rendering of the last min(5, len) messages |
| PlanPromptService.NoHistoryNoConversation | backend/services/claude_service.py:78-79 | the conversation header appears at its place iff the history is non-empty |
| PlanPromptService.PromptLength | backend/services/claude_service.py:62-105 | the number of prompt lines is 8, plus 5 with an artifact, plus 2+2·min(5, len) with a history, plus 12 |
| PlanPromptService.RequestTail | backend/services/claude_service.py:90-105 | the last twelve lines are the request block: its header, the user line, then the fixed instructions |
| PlanPromptService.PromptEndsWithInstructions | backend/services/claude_service.py:90-107 | the joined prompt ends with the last instruction line |
| PlanPromptService.RequestClosesPrompt | backend/services/claude_service.py:90-107 | the request block, after every optional block, closes the prompt; the prompt's length counts the blocks |
| PlanPromptService.GeneratePlan | backend/services/claude_service.py:12-48 | a prompt that cannot be built ends the call with the unwrapped `AttributeError` before the agent runs and with no chunks; otherwise the chunks relayed are those of the agent run on the built prompt in the repository's path, and the agent's failure becomes an error with the prefix `Claude Code generation failed: ` |
| BusinessRouter.CurrentPlan | backend/routers/business.py:50-55 | the current plan is `plan_artifact` when it is a non-empty dict, else None |
| BusinessRouter.LastAssistant | backend/routers/business.py:59-62 | the item found is an assistant dict of the list |
| BusinessRouter.LastAssistantIsLast | backend/routers/business.py:59-62 | an assistant dict is found iff the list has one, and no assistant dict follows the one found |
| BusinessRouter.FindPrevQuestions | backend/routers/business.py:57-64 | the reversed search with `break` computes `PrevQuestions` |
| BusinessRouter.PrevQuestionsCases | backend/routers/business.py:57-64 | None exactly when the list is absent or empty, or when the last assistant dict holds a null content; unbound iff the list is non-empty and holds no assistant dict; otherwise the content of the last assistant dict, `""` when it has no `content` key |
| BusinessRouter.Relayed | backend/routers/business.py:71-84 | every pair is relayed as one chunk event with the same chunk and type, in order |
| BusinessRouter.FallbackPlan | backend/routers/business.py:88 | the fallback plan starts with `# Plan for ` and the plan name, and is not blank |
| BusinessRouter.MaxVersion | backend/routers/business.py:97-103 | the latest version is the highest existing version number |
| BusinessRouter.NextVersion | backend/routers/business.py:104 | the next version is 1 with no versions, else one past an existing version and above all of them |
| BusinessRouter.StreamResponse | backend/routers/business.py:67-118 | the relay loop and its updates produce `StreamEvents` and store `StoredVersion`; unbound questions give a single error event and store nothing |
| BusinessRouter.GeneratePlanEndpoint | backend/routers/business.py:19-118 | status 400 without a user message, checked before any lookup; 404 for a missing plan, then for a missing repository; otherwise the event stream of the generator called with the repository path, message, questions and current plan |
| BusinessRouter.PlanTextAppend | backend/routers/business.py:77-80 | the plan content of consecutive runs of pairs is the concatenation of their plan content |
| BusinessRouter.OnlyPlanChunksAccumulate | backend/routers/business.py:79-80 | a pair adds its chunk to the accumulated content iff its type is plan |
| BusinessRouter.OneClosingEvent | backend/routers/business.py:113-118 | the stream ends with exactly one closing event, every earlier event is a chunk, and it is `complete` iff the questions were bound and the generator finished |
| BusinessRouter.PairsRelayedInOrder | backend/routers/business.py:71-84 | with bound questions, the generated pairs are relayed one event each, in order, before the closing event, even when the generator then failed |
| BusinessRouter.FallbackWhenNothingGenerated | backend/routers/business.py:86-92 | a run that yields nothing sends one fallback plan chunk, then `complete`, and stores the stripped fallback as the next version |
| BusinessRouter.StoredOnlyNonBlank | backend/routers/business.py:94-111 | a version is stored iff the stream completed with non-blank plan content; it holds the stripped content, and its number is the latest plus one, or 1 |

## Left out

- The agent SDK (`query`, `ClaudeCodeOptions`, dispatch on type names) becomes a function from the call to a finite message sequence and the exception that ended it, if any. The exception's type and the stderr prints of error messages are not modelled.
- `_call_claude_code` (backend/services/claude_service.py:110-190) is subprocess spawning, reading with timeouts, and a mock answer when the CLI is missing. It is the parameter `callAgent`, which returns the chunks and the failure, if any.
- The chunk-level classifier that turns the agent's text into `(output_type, chunk)` pairs is not part of this model. The router's generator is a parameter, and its run is an input sequence of pairs.
- Asynchrony and laziness: streams are finite sequences. A generator that never ends, and a client that stops reading early, are not modelled.
- Database failures and the commit and refresh of the new version are not modelled. The existing versions of the plan are an input sequence, and the stored version is a returned value. A failing database call inside `stream_response` would be caught like a generator failure; the model has no such failure.
- JSON: `json.dumps` of the artifact is the parameter `dumps`. The `data: ...\n\n` framing of server-sent events is left out, and events are datatype values.
- The `NameError` raised when `chat_messages` is non-empty but holds no assistant dict is modelled as the value `Unbound`. Using it ends the stream with one error event, whose message text is not modelled.
- Chat-message fields are missing, `null` or a string. A role or content of another JSON type is not modelled: in the prompt such a content is shown through `str()`, and a non-string role raises like a null one; in the router such a role never equals `assistant`, and such a content is passed on as it is.
- The request body is modelled by its three keys. A `user_message` that is present but not a string, and a `plan_artifact` that is not a dict, are not modelled.
- Text functions work on ASCII only: case mapping, white space (including the separators 0x1c-0x1f) and `title()`. Unicode case mapping and Unicode white space are not modelled.
- `run_iteration`, `_main` and the rest of backend/services/claude_script.py, the CRUD routers, models, schemas and the transcription router are not part of this model.
- ClaudePrompts.VocabHintLine: the "only if" half is stated on the prompt's list of lines (no hint line is inserted), not as the joined prompt lacking the hint text. It is stated for any text around the hint line; no separate lemma instantiates it on the literal text of `build_vocab_prompt`.
- ClaudePrompts.SystemPromptContract: the contract covers the header rules and the quoted headers, not the rest of the prompt's wording. That wording is reproduced in `SystemWordingFor`, but no property is proved about it.
- BackendClaudeService.GeneratePlan shares `AgentStream.QueryClaudeStream` with the root copy instead of a second, identical loop, because the two source loops are identical.
