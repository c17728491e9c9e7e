/**
 * The output-section registry, the output types named after its sections, and the
 * system and vocabulary prompts assembled from them.
 */
module ClaudePrompts {
  import opened Wrappers
  import opened Text

  /** One section of the agent's answer: a stable name, the exact header that opens it, a description and a rank. */
  datatype OutputSection = OutputSection(name: string, header: string, description: string, order: int)

  const PLAN_NAME := OutputSection("plan_name", "# Plan name", "A concise, descriptive name for the implementation plan", 1)
  const PLAN := OutputSection("plan", "# Plan draft", "The detailed implementation plan content", 2)
  const CLARIFY_QUESTIONS := OutputSection("clarify_questions", "# Clarifying questions", "Questions to clarify missing information", 3)

  predicate SortedByOrder(s: seq<OutputSection>) {
    forall i :: 0 < i < |s| ==> s[i - 1].order <= s[i].order
  }

  /** Inserts `x` before the first element whose order is not smaller, keeping equal orders stable. */
  function InsertByOrder(x: OutputSection, s: seq<OutputSection>): (r: seq<OutputSection>)
    requires SortedByOrder(s)
    ensures SortedByOrder(r)
    ensures multiset(r) == multiset(s) + multiset{x}
    ensures |r| == |s| + 1
    ensures r[0] == x || (s != [] && r[0] == s[0])
  {
    if s == [] then [x]
    else if x.order <= s[0].order then [x] + s
    else
      assert s == [s[0]] + s[1..];
      [s[0]] + InsertByOrder(x, s[1..])
  }

  /** Python's `sorted(..., key=lambda x: x.order)`, as a stable insertion sort. */
  function SortByOrder(s: seq<OutputSection>): (r: seq<OutputSection>)
    ensures SortedByOrder(r)
    ensures multiset(r) == multiset(s)
    ensures |r| == |s|
  {
    if s == [] then []
    else
      assert s == [s[0]] + s[1..];
      InsertByOrder(s[0], SortByOrder(s[1..]))
  }

  /** The registry, sorted by rank: exactly the three sections, in declaration order. */
  function AllSections(): (r: seq<OutputSection>)
    ensures r == [PLAN_NAME, PLAN, CLARIFY_QUESTIONS]
  {
    SortRegistry();
    SortByOrder([PLAN_NAME, PLAN, CLARIFY_QUESTIONS])
  }

  /** The sorted registry ranks its sections 1, 2, 3. */
  lemma AllSectionsRanked()
    ensures SortedByOrder(AllSections())
    ensures forall i :: 0 <= i < |AllSections()| ==> AllSections()[i].order == i + 1
  {
    var r := AllSections();
    assert r[0].order == 1 && r[1].order == 2 && r[2].order == 3;
  }

  /** Sorting the three declared sections by rank keeps their declaration order. */
  lemma SortRegistry()
    ensures SortByOrder([PLAN_NAME, PLAN, CLARIFY_QUESTIONS]) == [PLAN_NAME, PLAN, CLARIFY_QUESTIONS]
  {
    SortRanked(PLAN_NAME, PLAN, CLARIFY_QUESTIONS);
  }

  /** Three sections already in rank order are left as they are. */
  lemma SortRanked(a: OutputSection, b: OutputSection, c: OutputSection)
    requires a.order <= b.order <= c.order
    ensures SortByOrder([a, b, c]) == [a, b, c]
  {
    SortSingle(c);
    SortInFront(b, [c]);
    SortInFront(a, [b, c]);
  }

  lemma SortSingle(x: OutputSection)
    ensures SortByOrder([x]) == [x]
  {
    assert [x][1..] == [];
  }

  /** A section ranked no later than the head of an already sorted rest stays in front. */
  lemma SortInFront(x: OutputSection, rest: seq<OutputSection>)
    requires rest != [] && SortByOrder(rest) == rest && x.order <= rest[0].order
    ensures SortByOrder([x] + rest) == [x] + rest
  {
    var s := [x] + rest;
    assert s[0] == x && s[1..] == rest;
    assert SortByOrder(s) == InsertByOrder(x, rest);
  }

  /**
   * The dictionary `{s.name: s for s in sections}`: built left to right, so a later
   * section overrides an earlier one with the same name.
   */
  function NameIndex(sections: seq<OutputSection>): (r: map<string, OutputSection>)
    ensures forall name :: name in r <==> exists i :: 0 <= i < |sections| && sections[i].name == name
    ensures forall name :: name in r ==> r[name] in sections && r[name].name == name
  {
    if sections == [] then map[]
    else
      var last := sections[|sections| - 1];
      var earlier := NameIndex(sections[..|sections| - 1]);
      NameIndexStep(sections, earlier);
      earlier[last.name := last]
  }

  /** Adding the last section to the dictionary of the ones before it. */
  lemma NameIndexStep(sections: seq<OutputSection>, earlier: map<string, OutputSection>)
    requires |sections| > 0
    requires var front := sections[..|sections| - 1];
      (forall name :: name in earlier <==> exists i :: 0 <= i < |front| && front[i].name == name) &&
      (forall name :: name in earlier ==> earlier[name] in front && earlier[name].name == name)
    ensures var r := earlier[sections[|sections| - 1].name := sections[|sections| - 1]];
      (forall name :: name in r <==> exists i :: 0 <= i < |sections| && sections[i].name == name) &&
      (forall name :: name in r ==> r[name] in sections && r[name].name == name)
  {
    var front, last := sections[..|sections| - 1], sections[|sections| - 1];
    var r := earlier[last.name := last];
    forall name ensures name in r <==> exists i :: 0 <= i < |sections| && sections[i].name == name {
      if name != last.name && exists i :: 0 <= i < |sections| && sections[i].name == name {
        var i :| 0 <= i < |sections| && sections[i].name == name;
        assert front[i] == sections[i];
      }
      if name in earlier {
        var i :| 0 <= i < |front| && front[i].name == name;
        assert front[i] == sections[i];
      }
    }
    forall name | name in r ensures r[name] in sections && r[name].name == name {
      if name != last.name {
        var i :| 0 <= i < |front| && front[i] == earlier[name];
        assert front[i] == sections[i];
      }
    }
  }

  /** Lookup by name through the name dictionary: the section with that name, if any. */
  function SectionByName(name: string): (r: Option<OutputSection>)
    ensures r.Some? ==> r.value in AllSections() && r.value.name == name
    ensures r.None? ==> forall s :: s in AllSections() ==> s.name != name
  {
    var sections := NameIndex(AllSections());
    if name in sections then Some(sections[name]) else None
  }

  /** The first of `sections` whose header is exactly `header`. */
  function FirstWithHeader(sections: seq<OutputSection>, header: string): (r: Option<OutputSection>)
    ensures r.Some? ==> r.value in sections && r.value.header == header
    ensures r.None? ==> forall s :: s in sections ==> s.header != header
  {
    if sections == [] then None
    else if sections[0].header == header then Some(sections[0])
    else FirstWithHeader(sections[1..], header)
  }

  /** Lookup by exact header text. */
  function SectionByHeader(header: string): (r: Option<OutputSection>)
    ensures r.Some? ==> r.value in AllSections() && r.value.header == header
    ensures r.None? ==> forall s :: s in AllSections() ==> s.header != header
  {
    FirstWithHeader(AllSections(), header)
  }

  function MaxHeaderLengthOf(sections: seq<OutputSection>): (r: nat)
    requires |sections| > 0
    ensures forall s :: s in sections ==> |s.header| <= r
    ensures exists s :: s in sections && |s.header| == r
  {
    if |sections| == 1 then |sections[0].header|
    else
      var rest := MaxHeaderLengthOf(sections[1..]);
      if |sections[0].header| >= rest then |sections[0].header| else rest
  }

  /** The length of the longest registered header. */
  function MaxHeaderLength(): (r: nat)
    ensures forall s :: s in AllSections() ==> |s.header| <= r
    ensures exists s :: s in AllSections() && |s.header| == r
  {
    MaxHeaderLengthOf(AllSections())
  }

  /** The longest header is the clarifying-questions one, 22 characters. */
  lemma MaxHeaderLengthIsClarifyHeader()
    ensures MaxHeaderLength() == |CLARIFY_QUESTIONS.header| == 22
  {
  }

  /** Names and headers are pairwise distinct across the registry. */
  lemma SectionsDistinct()
    ensures forall s, u :: s in AllSections() && u in AllSections() && s != u ==> s.name != u.name && s.header != u.header
  {
    SectionNamesDistinct();
    SectionHeadersDistinct();
  }

  lemma SectionNamesDistinct()
    ensures forall s, u :: s in AllSections() && u in AllSections() && s != u ==> s.name != u.name
  {
  }

  lemma SectionHeadersDistinct()
    ensures forall s, u :: s in AllSections() && u in AllSections() && s != u ==> s.header != u.header
  {
  }

  /** Both lookups find every registered section from its own name and header. */
  lemma LookupRoundTrip(s: OutputSection)
    requires s in AllSections()
    ensures SectionByName(s.name) == Some(s)
    ensures SectionByHeader(s.header) == Some(s)
  {
    NameLookupRoundTrip(s);
    HeaderLookupRoundTrip(s);
  }

  lemma NameLookupRoundTrip(s: OutputSection)
    requires s in AllSections()
    ensures SectionByName(s.name) == Some(s)
  {
    SectionNamesDistinct();
  }

  lemma HeaderLookupRoundTrip(s: OutputSection)
    requires s in AllSections()
    ensures SectionByHeader(s.header) == Some(s)
  {
    SectionHeadersDistinct();
  }

  /** The registry holds the three declared sections and nothing else. */
  lemma RegisteredIsDeclared(s: OutputSection)
    requires s in AllSections()
    ensures s == PLAN_NAME || s == PLAN || s == CLARIFY_QUESTIONS
  {
  }

  /** Lookup by name succeeds for exactly the three registered names. */
  lemma SectionByNameDomain(name: string)
    ensures SectionByName(name).Some? <==>
      name == PLAN_NAME.name || name == PLAN.name || name == CLARIFY_QUESTIONS.name
  {
    var r := SectionByName(name);
    if r.Some? {
      RegisteredIsDeclared(r.value);
    }
    if name == PLAN_NAME.name {
      NameLookupRoundTrip(PLAN_NAME);
    } else if name == PLAN.name {
      NameLookupRoundTrip(PLAN);
    } else if name == CLARIFY_QUESTIONS.name {
      NameLookupRoundTrip(CLARIFY_QUESTIONS);
    }
  }

  /** Header lookup is exact: no prefix match and no case folding. */
  lemma SectionByHeaderDomain(header: string)
    ensures SectionByHeader(header).Some? <==>
      header == PLAN_NAME.header || header == PLAN.header || header == CLARIFY_QUESTIONS.header
  {
    var r := SectionByHeader(header);
    if r.Some? {
      RegisteredIsDeclared(r.value);
    }
    if header == PLAN_NAME.header {
      HeaderLookupRoundTrip(PLAN_NAME);
    } else if header == PLAN.header {
      HeaderLookupRoundTrip(PLAN);
    } else if header == CLARIFY_QUESTIONS.header {
      HeaderLookupRoundTrip(CLARIFY_QUESTIONS);
    }
  }

  /** The kinds of output chunk; each one's value is the name of its section. */
  datatype OutputType = PlanName | Plan | ClarifyQuestions {
    function Section(): OutputSection {
      match this
      case PlanName => PLAN_NAME
      case Plan => PLAN
      case ClarifyQuestions => CLARIFY_QUESTIONS
    }

    function Value(): string {
      Section().name
    }
  }

  /** Every output type's value looks up its own section. */
  lemma OutputTypeMatchesSection(t: OutputType)
    ensures t.Section() in AllSections()
    ensures SectionByName(t.Value()) == Some(t.Section())
  {
    LookupRoundTrip(t.Section());
  }

  /** No two output types share a value. */
  lemma OutputTypeValuesDistinct(t: OutputType, u: OutputType)
    ensures u.Value() == t.Value() ==> u == t
  {
    if u != t {
      SectionNamesDistinct();
      assert u.Section() != t.Section();
    }
  }

  // ---------------------------------------------------------------------------
  // System prompt

  function PlanGuidelines(isFirstIteration: bool): seq<string> {
    if isFirstIteration then [
      "- Produce a clear, organized outline breaking down the development into modules or tasks.",
      "- Include structure, key steps, dependencies, technology stack, code architecture, and testing strategy.",
      "- Use a **plan-and-solve** approach: first outline the overall plan, then optionally detail sub-steps."
    ] else [
      "- Review the previous plan and incorporate insights from the user's raw notes.",
      "- Refine, expand, or modify the plan based on the new information provided.",
      "- Address answered clarifying questions by updating the relevant plan sections.",
      "- Maintain a structured approach: modules/tasks, dependencies, architecture, testing strategy.",
      "- Use a **plan-and-solve** approach: first outline the overall updated plan, then detail sub-steps."
    ]
  }

  function ClarifyingGuidelines(isFirstIteration: bool): seq<string> {
    if isFirstIteration then [
      "- List any important missing information that would impact the plan's accuracy.",
      "- Focus on user experience, feature edge cases, data inputs/outputs,",
      "  integration requirements, constraints, or any ambiguity.",
      "- No more than 8 clarifying questions; choose only the most important."
    ] else [
      "- Remove any questions that have been answered.",
      "- Add new questions that arise from the updated context or user notes.",
      "- Focus on remaining uncertainties about user experience, feature edge cases,",
      "  data inputs/outputs, integration requirements, or constraints.",
      "- No more than 8 clarifying questions total; prioritize the most important ones."
    ]
  }

  /** A header as the system prompt quotes it, between backticks. */
  function Quoted(header: string): (r: string)
    ensures |r| == |header| + 2 && r[0] == r[|r| - 1] == '`'
  {
    "`" + header + "`"
  }

  /** The instruction the section extractor and the stream classifier rely on. */
  function FirstLineRule(): string {
    "- The very first line of your response must be exactly: " + Quoted(PLAN_NAME.header) + "."
  }

  function PlanHeaderRule(): string {
    "- Follow with a blank line, then a section titled " + Quoted(PLAN.header) + "."
  }

  function ClarifyHeaderRule(isFirstIteration: bool): string {
    var endingPeriod := if isFirstIteration then "." else " with the remaining/open questions only.";
    "- Conclude with a section titled " + Quoted(CLARIFY_QUESTIONS.header) + endingPeriod
  }

  /** The opening paragraph, with the refinement context on later iterations. */
  function OpeningLines(isFirstIteration: bool): seq<string> {
    var baseDescription :=
      if isFirstIteration then "Given the user's raw notes below, produce the output using the following strict format:"
      else "This is NOT the first iteration - you are reviewing and refining an existing plan based on additional context from the user.";
    var iterationContext :=
      if isFirstIteration then []
      else [
        "",
        "You will be provided with:",
        "1. **Previous Plan Draft** - The current plan that needs review",
        "2. **Previous Clarifying Questions** - Questions that were asked before",
        "3. **User Raw Notes** - Additional context, answers, or modifications from the user"
      ];
    [
      "",
      "You are **Claude Code**, an AI agent assistant specialized in helping developers",
      "draft high-quality implementation plans. " + baseDescription
    ] + iterationContext
  }

  /** The plan-name guidelines with their example, then the plan and question guidelines. */
  function GuidelineLines(isFirstIteration: bool): seq<string> {
    var first := isFirstIteration;
    var planContentType := if first then "Plan" else "Updated plan";
    var clarifyingType := if first then "Clarifying" else "Updated clarifying";
    var planOrUpdated := if first then "plan" else "updated plan";
    var characteristicsEnding := if first then "." else " of the refined plan.";
    var exampleName := if first then "Smart Developer Task Management Platform" else "CodeVerse - AI-Powered Development Platform";
    [
      "",
      "Plan name guidelines:\\n- Suggest a clear that captures the essence of the project",
      "- Keep it concise but informative (e.g., \"Modern Task Management Web App\", \"Real-time Collaboration Platform\")",
      "- Focus on the main purpose and key characteristics" + characteristicsEnding,
      "- EXAMPLE FORMAT:",
      "  ```",
      "  " + PLAN_NAME.header,
      "  " + exampleName,
      "",
      "  " + PLAN.header,
      "  [" + planOrUpdated + " content here]",
      "  ```",
      "",
      planContentType + " content guidelines:"
    ] + PlanGuidelines(first) + [
      "",
      clarifyingType + " questions guidelines:"
    ] + ClarifyingGuidelines(first) + [""]
  }

  /**
   * The wording of the system prompt between its three header rules: the lines before the
   * first-line rule, between it and the plan rule, between that and the questions rule,
   * and after the questions rule.
   */
  datatype SystemWording = SystemWording(
    beforeFirstLineRule: seq<string>,
    beforePlanRule: seq<string>,
    beforeClarifyRule: seq<string>,
    afterClarifyRule: seq<string>)

  /** The wording for a first or a refinement iteration. */
  function SystemWordingFor(isFirstIteration: bool): SystemWording {
    var conciseOrRefined := if isFirstIteration then "concise" else "refined";
    var planOrUpdated := if isFirstIteration then "plan" else "updated plan";
    SystemWording(
      OpeningLines(isFirstIteration) + ["", "Formatting requirements (critical):"],
      [
        "- Do not include anything before that first line (no preface, greetings, or metadata).",
        "- On the next line, write a " + conciseOrRefined + ", descriptive name for this implementation plan."
      ],
      ["- Under that heading, write the " + planOrUpdated + " content in Markdown."],
      ["- Do not use emojis in your response."] + GuidelineLines(isFirstIteration))
  }

  /** The prompt's lines: the wording with the three header rules in section order. */
  function SystemPromptLayout(isFirstIteration: bool, w: SystemWording): seq<string> {
    w.beforeFirstLineRule + [FirstLineRule()] + w.beforePlanRule + [PlanHeaderRule()]
      + w.beforeClarifyRule + [ClarifyHeaderRule(isFirstIteration)] + w.afterClarifyRule
  }

  /** The system prompt for a first or a refinement iteration: its lines joined with newlines. */
  function BuildSystemPrompt(isFirstIteration: bool): string {
    Join(SystemPromptLayout(isFirstIteration, SystemWordingFor(isFirstIteration)), "\n")
  }

  const SYSTEM_PROMPT := BuildSystemPrompt(true)
  const SYSTEM_PROMPT_NON_FIRST_ITERATION := BuildSystemPrompt(false)

  /** Each header rule quotes its header between backticks. */
  lemma HeaderRulesQuoteHeaders(isFirstIteration: bool)
    ensures Contains(FirstLineRule(), Quoted(PLAN_NAME.header))
    ensures Contains(PlanHeaderRule(), Quoted(PLAN.header))
    ensures Contains(ClarifyHeaderRule(isFirstIteration), Quoted(CLARIFY_QUESTIONS.header))
  {
    var ending := if isFirstIteration then "." else " with the remaining/open questions only.";
    InfixContains("- The very first line of your response must be exactly: ", Quoted(PLAN_NAME.header), ".");
    InfixContains("- Follow with a blank line, then a section titled ", Quoted(PLAN.header), ".");
    InfixContains("- Conclude with a section titled ", Quoted(CLARIFY_QUESTIONS.header), ending);
  }

  /**
   * Whichever iteration it is for, and whatever wording surrounds the header rules, the
   * system prompt names all three section headers (each quoted in its rule) and carries
   * the rule that the first line be exactly the plan-name header.
   */
  lemma SystemPromptContract(isFirstIteration: bool, w: SystemWording)
    ensures var prompt := Join(SystemPromptLayout(isFirstIteration, w), "\n");
      Contains(prompt, FirstLineRule()) &&
      forall s :: s in AllSections() ==> Contains(prompt, Quoted(s.header))
  {
    var first := isFirstIteration;
    var r1, r2, r3 := FirstLineRule(), PlanHeaderRule(), ClarifyHeaderRule(first);
    var prompt := Join(SystemPromptLayout(first, w), "\n");
    LinesAroundThree(w.beforeFirstLineRule, w.beforePlanRule, w.beforeClarifyRule, w.afterClarifyRule, r1, r2, r3, "\n");
    HeaderRulesQuoteHeaders(first);
    ContainsTransitive(prompt, r1, Quoted(PLAN_NAME.header));
    ContainsTransitive(prompt, r2, Quoted(PLAN.header));
    ContainsTransitive(prompt, r3, Quoted(CLARIFY_QUESTIONS.header));
    QuotesEveryHeader(prompt);
  }

  /** Both system prompts state the first-line rule and quote every registered header. */
  lemma SystemPromptQuotesHeaders(isFirstIteration: bool)
    ensures Contains(BuildSystemPrompt(isFirstIteration), FirstLineRule())
    ensures forall s :: s in AllSections() ==> Contains(BuildSystemPrompt(isFirstIteration), Quoted(s.header))
  {
    SystemPromptContract(isFirstIteration, SystemWordingFor(isFirstIteration));
  }

  /** A text quoting the three declared headers quotes every registered header. */
  lemma QuotesEveryHeader(text: string)
    requires Contains(text, Quoted(PLAN_NAME.header))
    requires Contains(text, Quoted(PLAN.header))
    requires Contains(text, Quoted(CLARIFY_QUESTIONS.header))
    ensures forall s :: s in AllSections() ==> Contains(text, Quoted(s.header))
  {
    forall s | s in AllSections() ensures Contains(text, Quoted(s.header)) {
      RegisteredIsDeclared(s);
    }
  }

  /** Each of three lines placed among others occurs in the joined text. */
  lemma LinesAroundThree(a: seq<string>, b: seq<string>, c: seq<string>, d: seq<string>, r1: string, r2: string, r3: string, sep: string)
    ensures var text := Join(a + [r1] + b + [r2] + c + [r3] + d, sep);
      Contains(text, r1) && Contains(text, r2) && Contains(text, r3)
  {
    var lines := a + [r1] + b + [r2] + c + [r3] + d;
    assert lines == a + [r1] + (b + [r2] + c + [r3] + d);
    ContainsSelf(r1);
    JoinContainsInMiddle(a, [r1], b + [r2] + c + [r3] + d, sep, 0, r1);
    assert lines == (a + [r1] + b) + [r2] + (c + [r3] + d);
    ContainsSelf(r2);
    JoinContainsInMiddle(a + [r1] + b, [r2], c + [r3] + d, sep, 0, r2);
    ContainsSelf(r3);
    JoinContainsInMiddle(a + [r1] + b + [r2] + c, [r3], d, sep, 0, r3);
  }

  // ---------------------------------------------------------------------------
  // Vocabulary prompt

  const HINT_PREFIX := "- optional_repo_hint: "

  function VocabIntro(): seq<string> {
    [
      "You are Claude Code with access to the project repository. Your task is to extract:",
      "1) relevant_files — the main/entry-point files in the **root** of the repo",
      "(relative paths from root, no subpaths unless an entry point only exists under",
      "a conventional subdir like `cmd/<app>/main.go` or `bin/*`).",
      "2) relevant_terms — the high-signal terms (proper nouns, multiword phrases,",
      "CLI commands, model names, API names) that repeatedly appear in code/README/config",
      "and should be used as **custom vocabulary for a speech-to-text service**.",
      "",
      "Why this matters: these terms will be passed to an STT engine as biasing vocabulary.",
      "Include exact casing (e.g., \"Claude Code\", \"Codeverse\", \"WebSocket\", \"gRPC\",",
      "\"Next.js\", \"OpenAI\"), multiword phrases (\"CLI coding agents\"), acronyms,",
      "domain entities, product/feature names, CLI subcommands, environment variable keys,",
      "major class/component names, and public API route names. Exclude generic words",
      "(\"server\", \"request\", \"user\") unless they are branded or uniquely significant",
      "in this repo.",
      "",
      "INPUTS (provided by the caller; if omitted, infer by reading the workspace):"
    ]
  }

  function VocabMiddle(): seq<string> {
    [
      "",
      "SELECTION HEURISTICS",
      "Relevant files (root-focused):",
      "- Python: files containing `if __name__ == \"__main__\"`; `main.py`, `app.py`,",
      "`serve.py`; entry points from `pyproject.toml [project.scripts]` or",
      "`setup.cfg`/`setup.py`; `manage.py` (Django).",
      "- Node/TS: `package.json` fields `\"main\"`, `\"bin\"`, `\"exports\"`, and scripts",
      "like `\"start\"`, `\"dev\"`; root `index.(js|ts)`, `server.(js|ts)`, `next.config.js`",
      "(Next.js uses `app/` or `pages/` for app entry, but root scripts may launch it).",
      "- Go: `cmd/<app>/main.go` (treat as root entry if present), or root `main.go`.",
      "- Rust: `src/main.rs`.",
      "- Java/Kotlin: root build files; main launcher classes; Spring Boot `@SpringBootApplication`.",
      "- C#: `Program.cs`.",
      "- Ruby: `bin/*`, `config.ru`.",
      "- Framework launchers and CLIs: anything referenced by Procfile,",
      "Dockerfile `CMD/ENTRYPOINT`, Makefile primary targets, `justfile` default,",
      "`bazel`/`pants` top targets.",
      "Exclude: tests, examples, docs, migrations, vendored deps, build artifacts, lockfiles, images.",
      "",
      "Relevant terms (keep signal high):",
      "- Product/project names, app names, codenames.",
      "- Feature flags, core domain nouns (e.g., \"plan canvas\", \"agent runner\").",
      "- CLI names and subcommands (`codeverse plan`, `codeverse run --repo`).",
      "- Prominent library/framework names actually used (e.g., \"Windsurf\", \"Cursor\",",
      "\"FastAPI\", \"Next.js\", \"Playwright\"), major protocol names (\"WebRTC\", \"SSE\", \"gRPC\").",
      "- Public API routes (`/api/plan`, `/v1/agents/run`), event types, queue/topic names.",
      "- Environment variable keys (`CODEVERSE_API_KEY`, `OPENAI_MODEL`), config keys,",
      "dataset/model names.",
      "- Filenames (without paths) that are often referenced in docs/issues (`process_events.py`, `main.py`).",
      "Deduplicate, preserve exact casing, keep multiword phrases intact. Prefer specificity over volume.",
      "",
      "PROCEDURE",
      "1) Read: repository tree, README, package/build files,",
      "Dockerfile/Procfile/Makefile/justfile, primary app files in root,",
      "and configs that declare entry points.",
      "2) Identify root-level main files using the heuristics above. Keep to max_files by importance.",
      "3) Collect candidate terms from names, configs, README, code identifiers/components,",
      "CLI definitions, env/config keys, and any provided optional_repo_hint.",
      "Filter to the most salient (frequency + centrality), keep to max_terms.",
      "4) Sort relevant_files by likely launch order/importance; sort relevant_terms by importance (most important first).",
      "5) Output strict JSON only. No comments, no trailing commas, no explanations.",
      "",
      "OUTPUT SCHEMA (STRICT):",
      "{",
      "  \"relevant_files\": [\"<filename.ext>\", \"...\"],",
      "  \"relevant_terms\": [\"<Exact Casing Term>\", \"...\"]",
      "}",
      "",
      "VALIDATION",
      "- Always return both keys, even if arrays are empty.",
      "- Paths in relevant_files should be **root-relative filenames** (e.g., \"main.py\").",
      "Only include a subpath if conventional (e.g., \"cmd/api/main.go\", \"bin/cli\").",
      "- Ensure JSON parses.",
      "",
      "NOW DO THIS"
    ]
  }

  function VocabEnd(): seq<string> {
    [
      "- If you find strong hints of these terms, include them (case-preserved):",
      "[\"Codeverse\", \"Claude Code\", \"CLI coding agents\"].",
      "- Return only the JSON object."
    ]
  }

  /** The optional hint line: present only for a non-empty hint. */
  function RepoHintLines(optionalRepoHint: Option<string>): seq<string> {
    if Truthy(optionalRepoHint) then [HINT_PREFIX + optionalRepoHint.value] else []
  }

  /** Everything after the hint line: the two caps, the heuristics and the output rules. */
  function VocabTail(maxFiles: int, maxTerms: int): seq<string> {
    [
      "- max_files: integer cap for relevant_files (default " + IntToString(maxFiles) + ").",
      "- max_terms: integer cap for relevant_terms (default " + IntToString(maxTerms) + ")."
    ] + VocabMiddle() + [
      "- Use max_files = " + IntToString(maxFiles) + " and max_terms = " + IntToString(maxTerms) + " unless the caller overrides."
    ] + VocabEnd() + [""]
  }

  function VocabPromptLines(optionalRepoHint: Option<string>, maxFiles: int, maxTerms: int): seq<string> {
    ([""] + VocabIntro()) + RepoHintLines(optionalRepoHint) + VocabTail(maxFiles, maxTerms)
  }

  /** The repository-vocabulary prompt; it is these lines joined with newlines. */
  function BuildVocabPrompt(optionalRepoHint: Option<string>, maxFiles: int, maxTerms: int): string {
    Join(VocabPromptLines(optionalRepoHint, maxFiles, maxTerms), "\n")
  }

  /**
   * The hint changes the prompt by one line only, placed between the introduction and the
   * rest: a non-empty hint inserts the hint prefix followed by the hint there, which the
   * joined prompt then contains, and a missing or empty hint inserts nothing.
   */
  lemma VocabHintLine(head: seq<string>, optionalRepoHint: Option<string>, tail: seq<string>)
    ensures var lines := head + RepoHintLines(optionalRepoHint) + tail;
      if Truthy(optionalRepoHint) then
        lines == head + [HINT_PREFIX + optionalRepoHint.value] + tail &&
        Contains(Join(lines, "\n"), HINT_PREFIX + optionalRepoHint.value)
      else
        lines == head + tail
  {
    if Truthy(optionalRepoHint) {
      var line := HINT_PREFIX + optionalRepoHint.value;
      ContainsSelf(line);
      JoinContainsInMiddle(head, [line], tail, "\n", 0, line);
    }
  }
}
