/**
 * The result-stream filter of the plan agent. claude_service.py and
 * backend/claude_service.py hold the same filter, line for line; it is modelled once
 * here, and each file's `generate_plan` (with its own system prompt) is modelled in
 * the two modules after this one.
 *
 * The agent is a function from its call (working directory, system prompt, prompt) to
 * the finite sequence of messages it streams back and the exception, if any, that the
 * SDK raised after them.
 */
module AgentStream {
  import opened Wrappers
  import opened Text

  /** The agent's messages, told apart by type name; every other type is `OtherMessage`. */
  datatype Message =
    | ErrorMessage(error: Option<string>)
    | ResultMessage(delta: Option<string>, resultDelta: Option<string>, result: Option<string>)
    | OtherMessage

  /** What one agent call streams: its messages, then the exception that ended it, if any. */
  datatype StreamRun = StreamRun(messages: seq<Message>, failure: Option<string>)

  /** The agent call: working directory, system prompt and prompt to its run. */
  type Agent = (string, Option<string>, string) -> StreamRun

  /** A result message whose `delta or result_delta` is a non-empty string. */
  predicate CarriesDelta(m: Message) {
    m.ResultMessage? && Truthy(Or(m.delta, m.resultDelta))
  }

  /** The text one message yields, given whether a delta was yielded before it. */
  function Emitted(sawDelta: bool, m: Message): (r: Option<string>)
    ensures r.Some? ==> r.value != ""
    ensures CarriesDelta(m) ==> r == Or(m.delta, m.resultDelta)
    ensures !m.ResultMessage? ==> r.None?
  {
    match m
    case ResultMessage(delta, resultDelta, result) =>
      var deltaText := Or(delta, resultDelta);
      if Truthy(deltaText) then deltaText
      else if Truthy(result) && !sawDelta then result
      else None
    case _ => None
  }

  function AsSeq(o: Option<string>): seq<string> {
    if o.Some? then [o.value] else []
  }

  /** The `saw_any_delta` flag after reading `ms`. */
  function SawDelta(ms: seq<Message>): bool {
    if ms == [] then false else SawDelta(ms[..|ms| - 1]) || CarriesDelta(ms[|ms| - 1])
  }

  /** Everything the filter yields for the stream `ms`, in order. */
  function Filtered(ms: seq<Message>): (r: seq<string>)
    ensures |r| <= |ms|
    ensures forall i :: 0 <= i < |r| ==> r[i] != ""
  {
    if ms == [] then []
    else
      var prefix := ms[..|ms| - 1];
      Filtered(prefix) + AsSeq(Emitted(SawDelta(prefix), ms[|ms| - 1]))
  }

  /** The filter read front to back, from a given flag: the generator as it runs. */
  function FilterFrom(sawDelta: bool, ms: seq<Message>): seq<string>
    decreases |ms|
  {
    if ms == [] then []
    else AsSeq(Emitted(sawDelta, ms[0])) + FilterFrom(sawDelta || CarriesDelta(ms[0]), ms[1..])
  }

  /** The delta texts of `ms`, in order. */
  function Deltas(ms: seq<Message>): seq<string> {
    if ms == [] then []
    else (if CarriesDelta(ms[0]) then [Or(ms[0].delta, ms[0].resultDelta).value] else []) + Deltas(ms[1..])
  }

  /**
   * `_query_claude_stream` over an already received stream: the flag starts false,
   * error messages are skipped (their text goes to the error output only), a result
   * message yields its delta and raises the flag, or else yields its whole result
   * while the flag is down.
   */
  method QueryClaudeStream(messages: seq<Message>) returns (chunks: seq<string>)
    ensures chunks == Filtered(messages)
    ensures chunks == FilterFrom(false, messages)
  {
    var sawAnyDelta := false;
    chunks := [];
    for i := 0 to |messages|
      invariant sawAnyDelta == SawDelta(messages[..i])
      invariant chunks == Filtered(messages[..i])
    {
      assert messages[..i + 1][..i] == messages[..i];
      var message := messages[i];
      match message {
        case ErrorMessage(_) =>
        case ResultMessage(delta, resultDelta, result) =>
          var deltaText := Or(delta, resultDelta);
          if Truthy(deltaText) {
            sawAnyDelta := true;
            chunks := chunks + [deltaText.value];
          } else if Truthy(result) && !sawAnyDelta {
            chunks := chunks + [result.value];
          }
        case OtherMessage =>
      }
    }
    assert messages[..|messages|] == messages;
    ReadFromStart(messages);
  }

  /** The flag is raised exactly when some message so far carried a delta. */
  lemma {:induction false} SawDeltaSome(ms: seq<Message>)
    ensures SawDelta(ms) <==> exists i :: 0 <= i < |ms| && CarriesDelta(ms[i])
  {
    if ms != [] {
      var prefix := ms[..|ms| - 1];
      SawDeltaSome(prefix);
      if SawDelta(prefix) {
        var i :| 0 <= i < |prefix| && CarriesDelta(prefix[i]);
        assert ms[i] == prefix[i];
      }
      if exists i :: 0 <= i < |ms| && CarriesDelta(ms[i]) {
        var i :| 0 <= i < |ms| && CarriesDelta(ms[i]);
        if i < |prefix| {
          assert prefix[i] == ms[i];
        }
      }
    }
  }

  /** Once raised, the flag is never lowered. */
  lemma FlagNeverReset(pre: seq<Message>, post: seq<Message>)
    requires SawDelta(pre)
    ensures SawDelta(pre + post)
  {
    SawDeltaSome(pre);
    SawDeltaSome(pre + post);
    var i :| 0 <= i < |pre| && CarriesDelta(pre[i]);
    assert (pre + post)[i] == pre[i];
  }

  /** Reading `pre` and then `post` yields what `pre` yields, then what `post` yields from the flag `pre` left. */
  lemma {:induction false} FilterSplit(pre: seq<Message>, post: seq<Message>)
    ensures Filtered(pre + post) == Filtered(pre) + FilterFrom(SawDelta(pre), post)
    decreases |post|
  {
    if post == [] {
      assert pre + post == pre;
    } else {
      var next := pre + [post[0]];
      assert next[..|next| - 1] == pre;
      assert pre + post == next + post[1..];
      FilterSplit(next, post[1..]);
    }
  }

  /** The back-to-front definition and the generator agree. */
  lemma ReadFromStart(ms: seq<Message>)
    ensures Filtered(ms) == FilterFrom(false, ms)
  {
    FilterSplit([], ms);
    assert [] + ms == ms;
  }

  /** An error message, or a message of any type other than a result, yields nothing and changes nothing. */
  lemma NonResultIsSilent(pre: seq<Message>, m: Message, post: seq<Message>)
    requires !m.ResultMessage?
    ensures Filtered(pre + [m] + post) == Filtered(pre + post)
  {
    var rest := [m] + post;
    assert pre + [m] + post == pre + rest;
    assert rest[0] == m && rest[1..] == post;
    assert FilterFrom(SawDelta(pre), rest) == FilterFrom(SawDelta(pre), post);
    FilterSplit(pre, rest);
    FilterSplit(pre, post);
  }

  /** A message carrying a delta yields exactly that text, and the flag is up from then on. */
  lemma DeltaIsForwarded(pre: seq<Message>, m: Message)
    requires CarriesDelta(m)
    ensures Filtered(pre + [m]) == Filtered(pre) + [Or(m.delta, m.resultDelta).value]
    ensures Truthy(m.delta) ==> Filtered(pre + [m]) == Filtered(pre) + [m.delta.value]
    ensures !Truthy(m.delta) ==> Filtered(pre + [m]) == Filtered(pre) + [m.resultDelta.value]
    ensures SawDelta(pre + [m])
  {
    assert (pre + [m])[..|pre|] == pre;
  }

  /**
   * A result message without a delta yields its whole result exactly when the result is
   * a non-empty string and no earlier message carried a delta.
   */
  lemma ResultOnlyBeforeAnyDelta(pre: seq<Message>, m: Message)
    requires m.ResultMessage? && !CarriesDelta(m)
    ensures Filtered(pre + [m]) ==
      if Truthy(m.result) && !(exists i :: 0 <= i < |pre| && CarriesDelta(pre[i]))
      then Filtered(pre) + [m.result.value]
      else Filtered(pre)
  {
    var ms := pre + [m];
    assert ms[..|ms| - 1] == pre && ms[|ms| - 1] == m;
    var emitted := Emitted(SawDelta(pre), m);
    assert Filtered(ms) == Filtered(pre) + AsSeq(emitted);
    assert emitted == if Truthy(m.result) && !SawDelta(pre) then m.result else None;
    SawDeltaSome(pre);
  }

  /** Once a delta has been yielded, only deltas follow: no later result is ever yielded. */
  lemma {:induction false} AfterDeltaOnlyDeltas(pre: seq<Message>, post: seq<Message>)
    requires exists i :: 0 <= i < |pre| && CarriesDelta(pre[i])
    ensures Filtered(pre + post) == Filtered(pre) + Deltas(post)
  {
    SawDeltaSome(pre);
    FilterSplit(pre, post);
    RaisedFlagYieldsDeltas(post);
  }

  lemma {:induction false} RaisedFlagYieldsDeltas(ms: seq<Message>)
    ensures FilterFrom(true, ms) == Deltas(ms)
  {
    if ms != [] {
      RaisedFlagYieldsDeltas(ms[1..]);
    }
  }
}

/** claude_service.py at the repository root: its system prompt and `generate_plan`. */
module RootClaudeService {
  import opened Wrappers
  import opened AgentStream

  const SYSTEM_PROMPT: string :=
    "\n"
    + "You are **Claude Code**, an AI agent assistant specialized in helping developers draft high-quality implementation plans. Given the user's raw notes below, your output must include two sections:\n"
    + "\n"
    + "---\n"
    + "\n"
    + "## 1. **Plan Draft** (in Markdown)\n"
    + "- Produce a clear, organized outline breaking down the development into modules or tasks.\n"
    + "- Include structure, key steps, dependencies, technology stack, code architecture, and testing strategy.\n"
    + "- Use a **plan-and-solve** approach: first outline the overall plan, then optionally detail sub-steps.\n"
    + "\n"
    + "## 2. **Clarifying Questions**\n"
    + "- List any important missing information that would impact the plan's accuracy.\n"
    + "- Focus on user experience, feature edge cases, data inputs/outputs, integration requirements, constraints, or any ambiguity.\n"
    + "\n"
    + "**Instructions:**\n"
    + "1. Provide a transparent, simple plan first, then details.\n"
    + "2. Avoid assumptions\U{2014}list uncertainties in clarifying questions.\n"
    + "3. No more than 8 clarifying questions so choose the best ones.\n"
    + "4. Treat this as a *draft* to be reviewed and improved collaboratively with the user.\n"
    + "5. Do not use emojis in your response!\n"

  /**
   * Streams the filtered agent answer to the raw notes, run in the project directory
   * with this file's system prompt; the previous questions and the current plan are
   * accepted and not used. An exception of the agent reaches the caller unwrapped,
   * after the chunks of the messages that came before it.
   */
  method GeneratePlan(agent: Agent, projectDir: string, userRawNotes: string,
                      prevClarifyingQuestions: Option<string>, currentPlan: Option<string>)
    returns (chunks: seq<string>, failure: Option<string>)
    ensures var run := agent(projectDir, Some(SYSTEM_PROMPT), userRawNotes);
      chunks == Filtered(run.messages) && failure == run.failure
  {
    var run := agent(projectDir, Some(SYSTEM_PROMPT), userRawNotes);
    chunks := QueryClaudeStream(run.messages);
    failure := run.failure;
  }
}

/** backend/claude_service.py: the same filter, a shorter system prompt. */
module BackendClaudeService {
  import opened Wrappers
  import opened AgentStream

  const SYSTEM_PROMPT: string :=
    "You are Claude Code, an assistant helping developers draft plans. "
    + "Provide a simple outline first, then details, and list up to 8 clarifying questions."

  /** As in the root copy, with this file's system prompt. */
  method GeneratePlan(agent: Agent, projectDir: string, userRawNotes: string,
                      prevClarifyingQuestions: Option<string>, currentPlan: Option<string>)
    returns (chunks: seq<string>, failure: Option<string>)
    ensures var run := agent(projectDir, Some(SYSTEM_PROMPT), userRawNotes);
      chunks == Filtered(run.messages) && failure == run.failure
  {
    var run := agent(projectDir, Some(SYSTEM_PROMPT), userRawNotes);
    chunks := QueryClaudeStream(run.messages);
    failure := run.failure;
  }
}
