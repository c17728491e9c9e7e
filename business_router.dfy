/**
 * backend/routers/business.py: the plan-generation endpoint. It validates the request,
 * looks up the plan and its repository, picks the current plan artifact and the
 * previous clarifying questions, then relays the generator's `(output_type, chunk)`
 * pairs as events, accumulates the plan chunks and stores them as the next plan version.
 *
 * The database is the maps `plans` and `repositories` and the sequence of the plan's
 * existing version numbers; the generator is a function from its arguments to the
 * pairs it yields and the failure, if any, that ended it. Events are values, not
 * their JSON text.
 */
module BusinessRouter {
  import opened Wrappers
  import opened Text
  import opened ClaudePrompts

  /** The request body: the three keys the endpoint reads; `None` where a key is absent or null. */
  datatype RequestData<V> = RequestData(userMessage: Option<string>, planArtifact: Option<map<string, V>>,
                                        chatMessages: Option<seq<ChatItem>>)

  /** An entry of `chat_messages`: a dict (its `role` and `content` keys) or anything else. */
  datatype ChatItem = DictItem(role: Field, content: Field) | NonDictItem

  datatype PlanRecord = PlanRecord(name: string, repositoryId: string)

  datatype RepositoryRecord = RepositoryRecord(path: string)

  /**
   * `prev_clarifying_questions` when the generator is called: bound to a value, or never
   * assigned (a non-empty chat list without an assistant dict).
   */
  datatype Binding = Bound(value: Option<string>) | Unbound

  /** What stopped the stream early: the unassigned variable, or a failure the generator raised. */
  datatype Failure = UnboundQuestions | Raised(message: string)

  datatype Event = ChunkEvent(chunk: string, outputType: OutputType) | CompleteEvent | ErrorEvent(failure: Failure)

  /** The pairs the generator yielded, then the failure that ended it, if any. */
  datatype GeneratorRun = GeneratorRun(pairs: seq<(OutputType, string)>, failure: Option<string>)

  /** The generator: project directory, raw notes, previous questions and current plan to its run. */
  type Generator<!V> = (string, string, Option<string>, Option<map<string, V>>) -> GeneratorRun

  datatype NewVersion = NewVersion(content: string, version: int)

  datatype Response = HttpError(status: int, detail: string) | EventStream(events: seq<Event>, stored: Option<NewVersion>)

  // ---------------------------------------------------------------------------
  // Request preprocessing

  /** The artifact handed on: the request's `plan_artifact` when truthy, else nothing. */
  function CurrentPlan<V>(planArtifact: Option<map<string, V>>): (r: Option<map<string, V>>)
    ensures r.Some? <==> planArtifact.Some? && |planArtifact.value| > 0
    ensures r.Some? ==> r == planArtifact
  {
    if planArtifact.Some? && |planArtifact.value| > 0 then planArtifact else None
  }

  predicate IsAssistant(item: ChatItem) {
    item.DictItem? && item.role == Str("assistant")
  }

  /** `message.get("content", "")` of a dict item: the default for a missing key, `None` for `null`. */
  function ContentOf(item: ChatItem): Option<string>
    requires item.DictItem?
  {
    match item.content
    case Absent => Some("")
    case Null => None
    case Str(text) => Some(text)
  }

  /** The last assistant dict of `items`, if there is one. */
  function LastAssistant(items: seq<ChatItem>): (r: Option<ChatItem>)
    ensures r.Some? ==> IsAssistant(r.value) && r.value in items
  {
    if items == [] then None
    else if IsAssistant(items[|items| - 1]) then Some(items[|items| - 1])
    else LastAssistant(items[..|items| - 1])
  }

  /** The previous clarifying questions the generator gets, or `Unbound`. */
  function PrevQuestions(chatMessages: Option<seq<ChatItem>>): Binding {
    if chatMessages.Some? && |chatMessages.value| > 0 then
      match LastAssistant(chatMessages.value)
      case Some(item) => Bound(ContentOf(item))
      case None => Unbound
    else Bound(None)
  }

  /** The search over the chat list from its end, stopping at the first assistant dict. */
  method FindPrevQuestions(chatOverride: Option<seq<ChatItem>>) returns (prev: Binding)
    ensures prev == PrevQuestions(chatOverride)
  {
    if chatOverride.Some? && |chatOverride.value| > 0 {
      var messages := chatOverride.value;
      prev := Unbound;
      var i := |messages|;
      assert messages[..i] == messages;
      while i > 0
        invariant 0 <= i <= |messages|
        invariant prev == Unbound
        invariant LastAssistant(messages) == LastAssistant(messages[..i])
        decreases i
      {
        i := i - 1;
        assert messages[..i + 1][..i] == messages[..i];
        var message := messages[i];
        if IsAssistant(message) {
          prev := Bound(ContentOf(message));
          break;
        }
      }
    } else {
      prev := Bound(None);
    }
  }

  /** The questions come from the last assistant dict: one is found exactly when the list has one. */
  lemma {:induction false} LastAssistantIsLast(items: seq<ChatItem>)
    ensures LastAssistant(items).Some? <==> exists i :: 0 <= i < |items| && IsAssistant(items[i])
    ensures LastAssistant(items).Some? ==>
      exists i :: 0 <= i < |items| && items[i] == LastAssistant(items).value &&
        forall j :: i < j < |items| ==> !IsAssistant(items[j])
  {
    if items != [] {
      var prefix := items[..|items| - 1];
      LastAssistantIsLast(prefix);
      if !IsAssistant(items[|items| - 1]) {
        if exists i :: 0 <= i < |items| && IsAssistant(items[i]) {
          var i :| 0 <= i < |items| && IsAssistant(items[i]);
          assert prefix[i] == items[i];
        }
        if LastAssistant(prefix).Some? {
          var i :| 0 <= i < |prefix| && prefix[i] == LastAssistant(prefix).value &&
            forall j :: i < j < |prefix| ==> !IsAssistant(prefix[j]);
          assert items[i] == prefix[i];
          forall j | i < j < |items| ensures !IsAssistant(items[j]) {
            if j < |prefix| {
              assert items[j] == prefix[j];
            }
          }
        }
      }
    }
  }

  /**
   * No questions are passed when the chat list is absent or empty, or when the last
   * assistant dict holds a `null` content; the questions are unbound exactly when the
   * list is non-empty and holds no assistant dict; otherwise they are the content of the
   * last assistant dict ("" when it has no `content` key).
   */
  lemma PrevQuestionsCases(chatMessages: Option<seq<ChatItem>>)
    ensures PrevQuestions(chatMessages) == Bound(None) <==>
      chatMessages.None? || |chatMessages.value| == 0 ||
      var items := chatMessages.value;
      exists i :: 0 <= i < |items| && IsAssistant(items[i]) && items[i].content.Null? &&
        forall j :: i < j < |items| ==> !IsAssistant(items[j])
    ensures PrevQuestions(chatMessages) == Unbound <==>
      chatMessages.Some? && |chatMessages.value| > 0 &&
      forall i :: 0 <= i < |chatMessages.value| ==> !IsAssistant(chatMessages.value[i])
    ensures PrevQuestions(chatMessages).Bound? && chatMessages.Some? && |chatMessages.value| > 0 ==>
      var items := chatMessages.value;
      exists i :: 0 <= i < |items| && IsAssistant(items[i]) &&
        PrevQuestions(chatMessages).value == ContentOf(items[i]) &&
        forall j :: i < j < |items| ==> !IsAssistant(items[j])
  {
    if chatMessages.Some? {
      LastAssistantIsLast(chatMessages.value);
    }
  }

  // ---------------------------------------------------------------------------
  // The event stream

  /** The plan chunks of `pairs`, concatenated in order. */
  function PlanText(pairs: seq<(OutputType, string)>): string {
    if pairs == [] then ""
    else
      var last := pairs[|pairs| - 1];
      PlanText(pairs[..|pairs| - 1]) + (if last.0 == OutputType.Plan then last.1 else "")
  }

  /** One chunk event per pair, in order. */
  function Relayed(pairs: seq<(OutputType, string)>): (r: seq<Event>)
    ensures |r| == |pairs|
    ensures forall i :: 0 <= i < |pairs| ==> r[i] == ChunkEvent(pairs[i].1, pairs[i].0)
  {
    if pairs == [] then []
    else
      var last := pairs[|pairs| - 1];
      Relayed(pairs[..|pairs| - 1]) + [ChunkEvent(last.1, last.0)]
  }

  const FALLBACK_PREFIX := "# Plan for "

  /** The fallback plan's lines after its title line. */
  const FALLBACK_LINES: seq<string> :=
    ["", "## Overview", "Implementation plan is being generated.", "", "## Next Steps",
     "1. Review requirements", "2. Design architecture", "3. Implement features", "4. Add testing"]

  /** The plan text sent and stored when the generator yields nothing. */
  function FallbackPlan(planName: string): (r: string)
    ensures StartsWith(r, FALLBACK_PREFIX + planName)
    ensures Strip(r) != ""
  {
    var title := FALLBACK_PREFIX + planName;
    var r := Join([title] + FALLBACK_LINES, "\n");
    JoinStartsWithFirst([title] + FALLBACK_LINES, "\n");
    assert r[0] == title[0] == '#';
    NotBlankStripped(r);
    r
  }

  lemma NotBlankStripped(s: string)
    requires |s| > 0 && !IsSpace(s[0])
    ensures Strip(s) != ""
  {
    StripEmptyIffBlank(s);
  }

  /** The plan content the stream ends with: the plan chunks, or the fallback when nothing came. */
  function Accumulated(planName: string, pairs: seq<(OutputType, string)>): string {
    if |pairs| == 0 then FallbackPlan(planName) else PlanText(pairs)
  }

  /** The highest existing version number. */
  function MaxVersion(versions: seq<int>): (m: int)
    requires |versions| > 0
    ensures m in versions
    ensures forall v :: v in versions ==> v <= m
  {
    if |versions| == 1 then versions[0]
    else
      var rest := MaxVersion(versions[1..]);
      assert versions == [versions[0]] + versions[1..];
      if versions[0] > rest then versions[0] else rest
  }

  /** `latest_version.version + 1`, or 1 for a plan without versions. */
  function NextVersion(versions: seq<int>): (r: int)
    ensures versions == [] ==> r == 1
    ensures versions != [] ==> r - 1 in versions
    ensures forall v :: v in versions ==> v < r
  {
    if versions == [] then 1 else MaxVersion(versions) + 1
  }

  /** The events the stream sends. */
  function StreamEvents(planName: string, prev: Binding, run: GeneratorRun): seq<Event> {
    if prev.Unbound? then [ErrorEvent(UnboundQuestions)]
    else if run.failure.Some? then Relayed(run.pairs) + [ErrorEvent(Raised(run.failure.value))]
    else if |run.pairs| == 0 then [ChunkEvent(FallbackPlan(planName), OutputType.Plan), CompleteEvent]
    else Relayed(run.pairs) + [CompleteEvent]
  }

  /** The version the stream stores, if any. */
  function StoredVersion(planName: string, prev: Binding, run: GeneratorRun, versions: seq<int>): Option<NewVersion> {
    if prev.Unbound? || run.failure.Some? then None
    else
      var content := Strip(Accumulated(planName, run.pairs));
      if content != "" then Some(NewVersion(content, NextVersion(versions))) else None
  }

  /**
   * `stream_response`: relays every pair, accumulates the plan chunks, sends the
   * fallback when nothing came, stores the stripped plan content as the next version
   * and closes with `complete`; any failure closes it with a single `error` instead.
   * The generator is not called at all when the previous questions are unbound.
   */
  method StreamResponse<V>(planName: string, projectDir: string, userMessage: string, prev: Binding,
                           currentPlan: Option<map<string, V>>, generate: Generator<V>, versions: seq<int>)
    returns (events: seq<Event>, stored: Option<NewVersion>)
    ensures prev.Unbound? ==> events == [ErrorEvent(UnboundQuestions)] && stored == None
    ensures prev.Bound? ==>
      var run := generate(projectDir, userMessage, prev.value, currentPlan);
      events == StreamEvents(planName, prev, run) && stored == StoredVersion(planName, prev, run, versions)
  {
    events := [];
    stored := None;
    if prev.Unbound? {
      events := [ErrorEvent(UnboundQuestions)];
      return;
    }
    var accumulatedPlanContent := "";
    var claudeGeneratedContent := false;
    var run := generate(projectDir, userMessage, prev.value, currentPlan);
    for i := 0 to |run.pairs|
      invariant accumulatedPlanContent == PlanText(run.pairs[..i])
      invariant events == Relayed(run.pairs[..i])
      invariant claudeGeneratedContent <==> i > 0
    {
      assert run.pairs[..i + 1][..i] == run.pairs[..i];
      var (outputType, chunk) := run.pairs[i];
      claudeGeneratedContent := true;
      if outputType == OutputType.Plan {
        accumulatedPlanContent := accumulatedPlanContent + chunk;
      }
      events := events + [ChunkEvent(chunk, outputType)];
    }
    assert run.pairs[..|run.pairs|] == run.pairs;
    if run.failure.Some? {
      events := events + [ErrorEvent(Raised(run.failure.value))];
      return;
    }
    if !claudeGeneratedContent {
      var fallbackPlan := FallbackPlan(planName);
      accumulatedPlanContent := fallbackPlan;
      events := events + [ChunkEvent(fallbackPlan, OutputType.Plan)];
    }
    var content := Strip(accumulatedPlanContent);
    if content != "" {
      var nextVersion := if versions != [] then MaxVersion(versions) + 1 else 1;
      stored := Some(NewVersion(content, nextVersion));
    }
    events := events + [CompleteEvent];
  }

  /** `generate_plan_endpoint`: validation and lookups in order, then the event stream. */
  method GeneratePlanEndpoint<V>(planId: string, requestData: RequestData<V>, plans: map<string, PlanRecord>,
                                 repositories: map<string, RepositoryRecord>, versions: seq<int>,
                                 generate: Generator<V>)
    returns (response: Response)
    ensures !Truthy(requestData.userMessage) ==> response == HttpError(400, "user_message is required")
    ensures Truthy(requestData.userMessage) && planId !in plans ==> response == HttpError(404, "Plan not found")
    ensures Truthy(requestData.userMessage) && planId in plans && plans[planId].repositoryId !in repositories ==>
      response == HttpError(404, "Repository not found")
    ensures Truthy(requestData.userMessage) && planId in plans && plans[planId].repositoryId in repositories ==>
      var plan := plans[planId];
      var prev := PrevQuestions(requestData.chatMessages);
      var run := if prev.Bound? then
          generate(repositories[plan.repositoryId].path, requestData.userMessage.value, prev.value,
                   CurrentPlan(requestData.planArtifact))
        else GeneratorRun([], None);
      response == EventStream(StreamEvents(plan.name, prev, run), StoredVersion(plan.name, prev, run, versions))
  {
    var userMessage := requestData.userMessage;
    if !Truthy(userMessage) {
      return HttpError(400, "user_message is required");
    }
    if planId !in plans {
      return HttpError(404, "Plan not found");
    }
    var plan := plans[planId];
    if plan.repositoryId !in repositories {
      return HttpError(404, "Repository not found");
    }
    var repository := repositories[plan.repositoryId];
    var planDraftText := CurrentPlan(requestData.planArtifact);
    var prevClarifyingQuestions := FindPrevQuestions(requestData.chatMessages);
    var events, stored := StreamResponse(plan.name, repository.path, userMessage.value, prevClarifyingQuestions,
                                         planDraftText, generate, versions);
    response := EventStream(events, stored);
  }

  // ---------------------------------------------------------------------------
  // Properties of the stream

  /** The plan content of consecutive runs of pairs is the concatenation of their plan content. */
  lemma {:induction false} PlanTextAppend(a: seq<(OutputType, string)>, b: seq<(OutputType, string)>)
    ensures PlanText(a + b) == PlanText(a) + PlanText(b)
    decreases |b|
  {
    if b == [] {
      assert a + b == a;
    } else {
      var front := b[..|b| - 1];
      assert (a + b)[..|a + b| - 1] == a + front;
      assert b[..|b| - 1] == front;
      PlanTextAppend(a, front);
    }
  }

  /** Only plan chunks are accumulated: a chunk of any other type leaves the content unchanged. */
  lemma OnlyPlanChunksAccumulate(before: seq<(OutputType, string)>, outputType: OutputType, chunk: string,
                                 after: seq<(OutputType, string)>)
    ensures PlanText(before + [(outputType, chunk)] + after) ==
      PlanText(before) + (if outputType == OutputType.Plan then chunk else "") + PlanText(after)
  {
    PlanTextAppend(before + [(outputType, chunk)], after);
    PlanTextAppend(before, [(outputType, chunk)]);
    assert [(outputType, chunk)][..0] == [];
  }

  /**
   * The stream always ends with exactly one closing event: `complete` when the questions
   * were bound and the generator finished, `error` otherwise; every earlier event is a chunk.
   */
  lemma OneClosingEvent(planName: string, prev: Binding, run: GeneratorRun)
    ensures var events := StreamEvents(planName, prev, run);
      |events| > 0 &&
      (events[|events| - 1].CompleteEvent? || events[|events| - 1].ErrorEvent?) &&
      (events[|events| - 1].CompleteEvent? <==> prev.Bound? && run.failure.None?) &&
      forall i :: 0 <= i < |events| - 1 ==> events[i].ChunkEvent?
  {
    var events := StreamEvents(planName, prev, run);
    if prev.Unbound? {
      ClosedBy(events, [], ErrorEvent(UnboundQuestions));
    } else if run.failure.Some? {
      ClosedBy(events, Relayed(run.pairs), ErrorEvent(Raised(run.failure.value)));
    } else if |run.pairs| == 0 {
      ClosedBy(events, [ChunkEvent(FallbackPlan(planName), OutputType.Plan)], CompleteEvent);
    } else {
      ClosedBy(events, Relayed(run.pairs), CompleteEvent);
    }
  }

  /** A run of chunk events followed by one closing event. */
  lemma ClosedBy(events: seq<Event>, body: seq<Event>, closing: Event)
    requires events == body + [closing]
    requires forall i :: 0 <= i < |body| ==> body[i].ChunkEvent?
    ensures |events| > 0 && events[|events| - 1] == closing
    ensures forall i :: 0 <= i < |events| - 1 ==> events[i].ChunkEvent?
  {
    assert forall i :: 0 <= i < |events| - 1 ==> events[i] == body[i];
  }

  /**
   * With the questions bound, every generated pair is relayed as one chunk event, in
   * order, before the closing event, whether or not the generator then failed.
   */
  lemma PairsRelayedInOrder(planName: string, prev: Binding, run: GeneratorRun)
    requires prev.Bound? && (|run.pairs| > 0 || run.failure.Some?)
    ensures var events := StreamEvents(planName, prev, run);
      |events| == |run.pairs| + 1 &&
      forall i :: 0 <= i < |run.pairs| ==> events[i] == ChunkEvent(run.pairs[i].1, run.pairs[i].0)
  {
  }

  /**
   * When the generator finishes without yielding anything, one fallback plan chunk is sent
   * and the fallback, stripped, is stored as the next version.
   */
  lemma FallbackWhenNothingGenerated(planName: string, prev: Binding, versions: seq<int>)
    requires prev.Bound?
    ensures StreamEvents(planName, prev, GeneratorRun([], None)) ==
      [ChunkEvent(FallbackPlan(planName), OutputType.Plan), CompleteEvent]
    ensures StoredVersion(planName, prev, GeneratorRun([], None), versions) ==
      Some(NewVersion(Strip(FallbackPlan(planName)), NextVersion(versions)))
  {
    var fallback := FallbackPlan(planName);
    assert Accumulated(planName, []) == fallback;
    assert Strip(fallback) != "";
  }

  /**
   * A version is stored exactly when the stream completed and its plan content is not
   * blank; it holds the stripped content and the number one past the highest existing
   * version, 1 for the first.
   */
  lemma StoredOnlyNonBlank(planName: string, prev: Binding, run: GeneratorRun, versions: seq<int>)
    ensures var stored := StoredVersion(planName, prev, run, versions);
      (stored.Some? <==> prev.Bound? && run.failure.None? && !Blank(Accumulated(planName, run.pairs))) &&
      (stored.Some? ==>
         stored.value.content == Strip(Accumulated(planName, run.pairs)) &&
         stored.value.content != "" &&
         (versions == [] ==> stored.value.version == 1) &&
         (versions != [] ==> stored.value.version - 1 in versions) &&
         forall v :: v in versions ==> v < stored.value.version)
  {
    StripEmptyIffBlank(Accumulated(planName, run.pairs));
  }
}
