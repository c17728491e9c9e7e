/**
 * The line-based extractor that splits the agent's full answer into the plan name,
 * the plan draft and the clarifying questions.
 */
module ClaudeScript {
  import opened Wrappers
  import opened Text
  import opened ClaudePrompts

  /** The values `current_section` takes once a header has been seen. */
  datatype Section = PlanNameSection | PlanSection | QuestionsSection

  /**
   * The section a line opens, if it is a header line: it starts with `#` and its
   * lower-cased, stripped text contains one of the three phrases, checked in order.
   */
  function HeaderSection(line: string): (r: Option<Section>)
    ensures r.Some? ==> StartsWith(line, "#")
  {
    var lineLower := Strip(Lower(line));
    if Contains(lineLower, "plan name") && StartsWith(line, "#") then Some(PlanNameSection)
    else if Contains(lineLower, "plan draft") && StartsWith(line, "#") then Some(PlanSection)
    else if Contains(lineLower, "clarifying questions") && StartsWith(line, "#") then Some(QuestionsSection)
    else None
  }

  /**
   * The extractor's state machine is stated for any line classifier; the extractor
   * itself uses `HeaderSection`.
   */
  type Classifier = string -> Option<Section>

  /** The section in force after reading `lines`: the one the most recent header opened. */
  function CurrentAfter(classify: Classifier, lines: seq<string>): (r: Option<Section>)
    ensures r.Some? ==> exists i :: 0 <= i < |lines| && classify(lines[i]) == r
  {
    if lines == [] then None
    else
      var last := lines[|lines| - 1];
      var earlier := lines[..|lines| - 1];
      if classify(last).Some? then classify(last)
      else
        var r := CurrentAfter(classify, earlier);
        assert r.Some? ==> exists i :: 0 <= i < |earlier| && classify(earlier[i]) == r;
        assert forall i :: 0 <= i < |earlier| ==> earlier[i] == lines[i];
        r
  }

  /** The lines collected into `section` after reading `lines`, in their original order. */
  function Collected(classify: Classifier, lines: seq<string>, section: Section): (r: seq<string>)
    ensures |r| <= |lines|
  {
    if lines == [] then []
    else
      var last := lines[|lines| - 1];
      var earlier := lines[..|lines| - 1];
      if classify(last).Some? then Collected(classify, earlier, section)
      else if CurrentAfter(classify, earlier) == Some(section) then Collected(classify, earlier, section) + [last]
      else Collected(classify, earlier, section)
  }

  /** A section's result: `None` when nothing was collected, else the joined, stripped text. */
  function Finish(collected: seq<string>): (r: Option<string>)
    ensures r.None? <==> collected == []
  {
    if |collected| > 0 then Some(Strip(Join(collected, "\n"))) else None
  }

  /** `extract_plan_name_and_sections`. */
  method ExtractPlanNameAndSections(output: string) returns (planName: Option<string>, plan: Option<string>, questions: Option<string>)
    ensures var lines := Split(output, '\n');
      planName == Finish(Collected(HeaderSection, lines, PlanNameSection)) &&
      plan == Finish(Collected(HeaderSection, lines, PlanSection)) &&
      questions == Finish(Collected(HeaderSection, lines, QuestionsSection))
  {
    var lines := Split(output, '\n');
    var planNameLines: seq<string> := [];
    var planLines: seq<string> := [];
    var questionsLines: seq<string> := [];
    var currentSection: Option<Section> := None;
    for k := 0 to |lines|
      invariant currentSection == CurrentAfter(HeaderSection, lines[..k])
      invariant planNameLines == Collected(HeaderSection, lines[..k], PlanNameSection)
      invariant planLines == Collected(HeaderSection, lines[..k], PlanSection)
      invariant questionsLines == Collected(HeaderSection, lines[..k], QuestionsSection)
    {
      var line := lines[k];
      ReadOneMore(HeaderSection, lines, k);
      CollectOneMore(HeaderSection, lines, k, PlanNameSection);
      CollectOneMore(HeaderSection, lines, k, PlanSection);
      CollectOneMore(HeaderSection, lines, k, QuestionsSection);
      var lineLower := Strip(Lower(line));
      if Contains(lineLower, "plan name") && StartsWith(line, "#") {
        currentSection := Some(PlanNameSection);
        continue;
      } else if Contains(lineLower, "plan draft") && StartsWith(line, "#") {
        currentSection := Some(PlanSection);
        continue;
      } else if Contains(lineLower, "clarifying questions") && StartsWith(line, "#") {
        currentSection := Some(QuestionsSection);
        continue;
      }
      if currentSection == Some(PlanNameSection) {
        planNameLines := planNameLines + [line];
      } else if currentSection == Some(PlanSection) {
        planLines := planLines + [line];
      } else if currentSection == Some(QuestionsSection) {
        questionsLines := questionsLines + [line];
      }
    }
    assert lines[..|lines|] == lines;
    planName := Finish(planNameLines);
    plan := Finish(planLines);
    questions := Finish(questionsLines);
  }

  /** Reading one more line: the section in force afterwards. */
  lemma ReadOneMore(classify: Classifier, lines: seq<string>, k: int)
    requires 0 <= k < |lines|
    ensures CurrentAfter(classify, lines[..k + 1]) ==
      (if classify(lines[k]).Some? then classify(lines[k]) else CurrentAfter(classify, lines[..k]))
  {
    assert lines[..k + 1][..k] == lines[..k] && lines[..k + 1][k] == lines[k];
  }

  /** Reading one more line: what `section` holds afterwards. */
  lemma CollectOneMore(classify: Classifier, lines: seq<string>, k: int, section: Section)
    requires 0 <= k < |lines|
    ensures Collected(classify, lines[..k + 1], section) ==
      if classify(lines[k]).Some? then Collected(classify, lines[..k], section)
      else if CurrentAfter(classify, lines[..k]) == Some(section) then Collected(classify, lines[..k], section) + [lines[k]]
      else Collected(classify, lines[..k], section)
  {
    assert lines[..k + 1][..k] == lines[..k] && lines[..k + 1][k] == lines[k];
  }

  // ---------------------------------------------------------------------------
  // Header recognition

  /**
   * A line is a header exactly when it starts with `#` and its lower-cased text contains
   * one of the phrases; the first phrase in the order plan name, plan draft, clarifying
   * questions decides the section.
   */
  lemma HeaderSectionSpec(line: string)
    ensures HeaderSection(line) == Some(PlanNameSection) <==>
      StartsWith(line, "#") && Contains(Lower(line), "plan name")
    ensures HeaderSection(line) == Some(PlanSection) <==>
      StartsWith(line, "#") && !Contains(Lower(line), "plan name") && Contains(Lower(line), "plan draft")
    ensures HeaderSection(line) == Some(QuestionsSection) <==>
      StartsWith(line, "#") && !Contains(Lower(line), "plan name") && !Contains(Lower(line), "plan draft") &&
      Contains(Lower(line), "clarifying questions")
  {
    PlanNameHeaderSpec(line);
    PlanHeaderSpec(line);
    QuestionsHeaderSpec(line);
  }

  lemma PlanNameHeaderSpec(line: string)
    ensures HeaderSection(line) == Some(PlanNameSection) <==>
      StartsWith(line, "#") && Contains(Lower(line), "plan name")
  {
    ContainsStrip(Lower(line), "plan name");
  }

  lemma PlanHeaderSpec(line: string)
    ensures HeaderSection(line) == Some(PlanSection) <==>
      StartsWith(line, "#") && !Contains(Lower(line), "plan name") && Contains(Lower(line), "plan draft")
  {
    ContainsStrip(Lower(line), "plan name");
    ContainsStrip(Lower(line), "plan draft");
  }

  lemma QuestionsHeaderSpec(line: string)
    ensures HeaderSection(line) == Some(QuestionsSection) <==>
      StartsWith(line, "#") && !Contains(Lower(line), "plan name") && !Contains(Lower(line), "plan draft") &&
      Contains(Lower(line), "clarifying questions")
  {
    ContainsStrip(Lower(line), "plan name");
    ContainsStrip(Lower(line), "plan draft");
    ContainsStrip(Lower(line), "clarifying questions");
  }

  /** Lower-casing a line never changes whether, or which, header it is. */
  lemma HeaderSectionIgnoresCase(line: string)
    ensures HeaderSection(Lower(line)) == HeaderSection(line)
  {
    assert Lower(Lower(line)) == Lower(line);
    assert StartsWith(Lower(line), "#") <==> StartsWith(line, "#") by {
      if |line| > 0 {
        assert Lower(line)[0] == LowerChar(line[0]);
      }
    }
    SameHeaderSection(Lower(line), line);
  }

  /** Classification looks only at the lower-cased text and at the leading `#`. */
  lemma SameHeaderSection(a: string, b: string)
    requires Lower(a) == Lower(b)
    requires StartsWith(a, "#") <==> StartsWith(b, "#")
    ensures HeaderSection(a) == HeaderSection(b)
  {
  }

  /** The `#` must be the very first character: indentation makes a line plain text. */
  lemma IndentedHeaderIsText(line: string)
    requires |line| > 0 && line[0] != '#'
    ensures HeaderSection(line) == None
  {
  }

  /** The three headers the system prompt asks for open their own sections. */
  lemma RegisteredHeadersOpenSections()
    ensures HeaderSection(PLAN_NAME.header) == Some(PlanNameSection)
    ensures HeaderSection(PLAN.header) == Some(PlanSection)
    ensures HeaderSection(CLARIFY_QUESTIONS.header) == Some(QuestionsSection)
  {
    PlanNameHeaderOpensSection();
    PlanHeaderOpensSection();
    QuestionsHeaderOpensSection();
  }

  lemma PlanNameHeaderOpensSection()
    ensures HeaderSection(PLAN_NAME.header) == Some(PlanNameSection)
  {
    PlanNameHeaderLowers();
    OpensPlanName(PLAN_NAME.header);
  }

  lemma PlanNameHeaderLowers()
    ensures LowersToHeader(PLAN_NAME.header, "plan name")
  {
    var line := PLAN_NAME.header;
    assert line == "# Plan name";
    assert line[3..] == "plan name"[1..];
    CapitalThenSmall(line, "plan name");
  }

  lemma PlanHeaderOpensSection()
    ensures HeaderSection(PLAN.header) == Some(PlanSection)
  {
    PlanHeaderLowers();
    OpensPlan(PLAN.header);
  }

  lemma PlanHeaderLowers()
    ensures LowersToHeader(PLAN.header, "plan draft")
  {
    var line := PLAN.header;
    assert line == "# Plan draft";
    assert line[3..] == "plan draft"[1..];
    CapitalThenSmall(line, "plan draft");
  }

  lemma QuestionsHeaderOpensSection()
    ensures HeaderSection(CLARIFY_QUESTIONS.header) == Some(QuestionsSection)
  {
    QuestionsHeaderLowers();
    OpensQuestions(CLARIFY_QUESTIONS.header);
  }

  lemma QuestionsHeaderLowers()
    ensures LowersToHeader(CLARIFY_QUESTIONS.header, "clarifying questions")
  {
    var line := CLARIFY_QUESTIONS.header;
    assert line == "# Clarifying questions";
    assert line[3..] == "clarifying questions"[1..];
    CapitalThenSmall(line, "clarifying questions");
  }

  /** A line that lower-cases to `# ` followed by `phrase`. */
  predicate LowersToHeader(line: string, phrase: string) {
    && |line| == |phrase| + 2 && line[0] == '#' && line[1] == ' '
    && forall k | 0 <= k < |phrase| :: LowerChar(line[k + 2]) == phrase[k]
  }

  /** `# ` and a capital letter followed by the rest of `phrase`, which has no capitals. */
  lemma CapitalThenSmall(line: string, phrase: string)
    requires |line| == |phrase| + 2 && |phrase| > 0 && line[0] == '#' && line[1] == ' '
    requires LowerChar(line[2]) == phrase[0]
    requires line[3..] == phrase[1..]
    requires forall k | 1 <= k < |phrase| :: !IsUpper(phrase[k])
    ensures LowersToHeader(line, phrase)
  {
    forall k | 0 <= k < |phrase| ensures LowerChar(line[k + 2]) == phrase[k] {
      if k > 0 {
        assert line[k + 2] == line[3..][k - 1];
      }
    }
  }

  lemma LoweredHeader(line: string, phrase: string)
    requires LowersToHeader(line, phrase)
    ensures Lower(line) == "# " + phrase
    ensures StartsWith(line, "#")
  {
    LowerByCharacters(line, "# " + phrase);
  }

  lemma OpensPlanName(line: string)
    requires LowersToHeader(line, "plan name")
    ensures HeaderSection(line) == Some(PlanNameSection)
  {
    LoweredHeader(line, "plan name");
    OccursAfterPrefix("# ", "plan name");
    ContainsWitness(Lower(line), "plan name", 2);
    PlanNameHeaderSpec(line);
  }

  lemma OpensPlan(line: string)
    requires LowersToHeader(line, "plan draft")
    ensures HeaderSection(line) == Some(PlanSection)
  {
    LoweredHeader(line, "plan draft");
    OccursAfterPrefix("# ", "plan draft");
    ContainsWitness(Lower(line), "plan draft", 2);
    NoPlanNameInDraftHeader();
    PlanHeaderSpec(line);
  }

  lemma OpensQuestions(line: string)
    requires LowersToHeader(line, "clarifying questions")
    ensures HeaderSection(line) == Some(QuestionsSection)
  {
    LoweredHeader(line, "clarifying questions");
    OccursAfterPrefix("# ", "clarifying questions");
    ContainsWitness(Lower(line), "clarifying questions", 2);
    NoPlanPhraseInQuestionsHeader();
    QuestionsHeaderSpec(line);
  }

  lemma NoPlanNameInDraftHeader()
    ensures !Contains("# " + "plan draft", "plan name")
  {
    forall i | 0 <= i <= 3 ensures !OccursAt("# " + "plan draft", "plan name", i) {
      var w := ("# " + "plan draft")[i..i + 9];
      if i == 2 {
        assert w[5] == 'd';
      } else {
        assert w[0] != 'p';
      }
    }
  }

  lemma NoPlanPhraseInQuestionsHeader()
    ensures !Contains("# " + "clarifying questions", "plan name")
    ensures !Contains("# " + "clarifying questions", "plan draft")
  {
    assert 'p' !in "# " + "clarifying questions";
    NotContainsWithoutFirstChar("# " + "clarifying questions", "plan name");
    NotContainsWithoutFirstChar("# " + "clarifying questions", "plan draft");
  }

  // ---------------------------------------------------------------------------
  // Sections

  lemma DropLast(lines: seq<string>, last: string)
    ensures (lines + [last])[..|lines|] == lines && (lines + [last])[|lines|] == last
  {
  }

  /** Before the first header there is no section, so nothing is collected. */
  lemma {:induction false} PreambleDropped(classify: Classifier, preamble: seq<string>, section: Section)
    requires forall i :: 0 <= i < |preamble| ==> classify(preamble[i]).None?
    ensures CurrentAfter(classify, preamble) == None
    ensures Collected(classify, preamble, section) == []
  {
    if preamble != [] {
      var earlier := preamble[..|preamble| - 1];
      assert forall i :: 0 <= i < |earlier| ==> earlier[i] == preamble[i];
      PreambleDropped(classify, earlier, section);
    }
  }

  /**
   * After a header, every following non-header line goes, in order, to that header's
   * section and to no other; a header that was seen before re-opens its section and
   * appends to what it already holds.
   */
  lemma {:induction false} AfterHeader(classify: Classifier, before: seq<string>, header: string, body: seq<string>, section: Section)
    requires classify(header).Some?
    requires forall i :: 0 <= i < |body| ==> classify(body[i]).None?
    ensures CurrentAfter(classify, before + [header] + body) == classify(header)
    ensures Collected(classify, before + [header] + body, section) ==
      Collected(classify, before, section) + (if classify(header) == Some(section) then body else [])
  {
    var lines := before + [header] + body;
    if body == [] {
      assert lines == before + [header];
      DropLast(before, header);
    } else {
      var shorter := body[..|body| - 1];
      var last := body[|body| - 1];
      assert body == shorter + [last];
      assert lines == (before + [header] + shorter) + [last];
      DropLast(before + [header] + shorter, last);
      AfterHeader(classify, before, header, shorter, section);
    }
  }

  /** A header line is never copied into a section. */
  lemma {:induction false} NoHeaderCopied(classify: Classifier, lines: seq<string>, section: Section)
    ensures forall line :: line in Collected(classify, lines, section) ==> classify(line).None?
  {
    if lines != [] {
      var earlier := lines[..|lines| - 1];
      var last := lines[|lines| - 1];
      NoHeaderCopied(classify, earlier, section);
      var before := Collected(classify, earlier, section);
      if classify(last).None? && CurrentAfter(classify, earlier) == Some(section) {
        assert Collected(classify, lines, section) == before + [last];
      } else {
        assert Collected(classify, lines, section) == before;
      }
    }
  }

  /** With no header line anywhere, all three results are `None`. */
  lemma NoHeadersNoSections(output: string)
    requires var lines := Split(output, '\n'); forall i :: 0 <= i < |lines| ==> HeaderSection(lines[i]).None?
    ensures var lines := Split(output, '\n');
      Finish(Collected(HeaderSection, lines, PlanNameSection)) == None &&
      Finish(Collected(HeaderSection, lines, PlanSection)) == None &&
      Finish(Collected(HeaderSection, lines, QuestionsSection)) == None
  {
    var lines := Split(output, '\n');
    PreambleDropped(HeaderSection, lines, PlanNameSection);
    PreambleDropped(HeaderSection, lines, PlanSection);
    PreambleDropped(HeaderSection, lines, QuestionsSection);
  }

  /** A section whose collected lines are all blank yields the empty string, not `None`. */
  lemma BlankSectionIsEmpty(collected: seq<string>)
    requires |collected| > 0
    requires forall i :: 0 <= i < |collected| ==> Blank(collected[i])
    ensures Finish(collected) == Some("")
  {
    JoinBlank(collected, "\n");
    StripEmptyIffBlank(Join(collected, "\n"));
  }

  // ---------------------------------------------------------------------------
  // The format the system prompt asks for is read back

  /**
   * An answer in the requested layout: the plan-name header, the name, a blank line, the
   * plan header, the plan, the questions header, the questions.
   */
  function FormattedAnswer(name: string, planLines: seq<string>, questionLines: seq<string>): seq<string> {
    AnswerLayout(PLAN_NAME.header, PLAN.header, CLARIFY_QUESTIONS.header, name, "", planLines, questionLines)
  }

  /** The answer shape with the three header lines left open. */
  function AnswerLayout(nameHeader: string, planHeader: string, questionsHeader: string,
                        name: string, blank: string, planLines: seq<string>, questionLines: seq<string>): seq<string> {
    [nameHeader, name, blank, planHeader] + planLines + [questionsHeader] + questionLines
  }

  /**
   * Reading such an answer collects the name (followed by the blank line) as the plan
   * name, the plan lines as the plan and the question lines as the questions, as long
   * as none of the user text is itself a header line.
   */
  lemma FormattedAnswerReadBack(name: string, planLines: seq<string>, questionLines: seq<string>)
    requires HeaderSection(name).None?
    requires forall i :: 0 <= i < |planLines| ==> HeaderSection(planLines[i]).None?
    requires forall i :: 0 <= i < |questionLines| ==> HeaderSection(questionLines[i]).None?
    ensures var lines := FormattedAnswer(name, planLines, questionLines);
      Collected(HeaderSection, lines, PlanNameSection) == [name, ""] &&
      Collected(HeaderSection, lines, PlanSection) == planLines &&
      Collected(HeaderSection, lines, QuestionsSection) == questionLines
  {
    RegisteredHeadersOpenSections();
    EmptyLineIsText();
    LayoutReadBack(HeaderSection, PLAN_NAME.header, PLAN.header, CLARIFY_QUESTIONS.header,
                   name, "", planLines, questionLines);
  }

  /**
   * The same read back through `ExtractPlanNameAndSections`: the answer's text splits
   * into the answer's lines again, so the plan name, the plan and the questions come out
   * as the stripped text of the name, of the plan lines and of the question lines.
   */
  lemma FormattedTextReadBack(name: string, planLines: seq<string>, questionLines: seq<string>)
    requires HeaderSection(name).None? && '\n' !in name
    requires forall i :: 0 <= i < |planLines| ==> HeaderSection(planLines[i]).None? && '\n' !in planLines[i]
    requires forall i :: 0 <= i < |questionLines| ==> HeaderSection(questionLines[i]).None? && '\n' !in questionLines[i]
    ensures var lines := Split(Join(FormattedAnswer(name, planLines, questionLines), "\n"), '\n');
      Finish(Collected(HeaderSection, lines, PlanNameSection)) == Some(Strip(name + "\n")) &&
      Finish(Collected(HeaderSection, lines, PlanSection)) ==
        (if planLines == [] then None else Some(Strip(Join(planLines, "\n")))) &&
      Finish(Collected(HeaderSection, lines, QuestionsSection)) ==
        (if questionLines == [] then None else Some(Strip(Join(questionLines, "\n"))))
  {
    var lines := FormattedAnswer(name, planLines, questionLines);
    HeadersHaveNoNewline();
    forall k | 0 <= k < |lines| ensures '\n' !in lines[k] {
      if k >= 4 + |planLines| + 1 {
        assert lines[k] == questionLines[k - 5 - |planLines|];
      } else if k >= 4 && k < 4 + |planLines| {
        assert lines[k] == planLines[k - 4];
      }
    }
    SplitJoin(lines, '\n');
    FormattedAnswerReadBack(name, planLines, questionLines);
    assert Join([name, ""], "\n") == name + "\n";
  }

  /** No registered header spans two lines. */
  lemma HeadersHaveNoNewline()
    ensures '\n' !in PLAN_NAME.header && '\n' !in PLAN.header && '\n' !in CLARIFY_QUESTIONS.header
  {
    NoNewlineIn(PLAN_NAME.header);
    NoNewlineIn(PLAN.header);
    NoNewlineIn(CLARIFY_QUESTIONS.header);
  }

  /** A line of printable characters holds no newline. */
  lemma NoNewlineIn(s: string)
    requires forall k :: 0 <= k < |s| ==> ' ' <= s[k]
    ensures '\n' !in s
  {
  }

  lemma EmptyLineIsText()
    ensures HeaderSection("").None?
  {
  }

  /** The same for any classifier, any three header lines it recognises and any other lines. */
  lemma LayoutReadBack(classify: Classifier, nameHeader: string, planHeader: string, questionsHeader: string,
                       name: string, blank: string, planLines: seq<string>, questionLines: seq<string>)
    requires classify(nameHeader) == Some(PlanNameSection)
    requires classify(planHeader) == Some(PlanSection)
    requires classify(questionsHeader) == Some(QuestionsSection)
    requires classify(name).None? && classify(blank).None?
    requires forall i :: 0 <= i < |planLines| ==> classify(planLines[i]).None?
    requires forall i :: 0 <= i < |questionLines| ==> classify(questionLines[i]).None?
    ensures var lines := AnswerLayout(nameHeader, planHeader, questionsHeader, name, blank, planLines, questionLines);
      Collected(classify, lines, PlanNameSection) == [name, blank] &&
      Collected(classify, lines, PlanSection) == planLines &&
      Collected(classify, lines, QuestionsSection) == questionLines
  {
    LayoutSection(classify, nameHeader, planHeader, questionsHeader, name, blank, planLines, questionLines, PlanNameSection);
    LayoutSection(classify, nameHeader, planHeader, questionsHeader, name, blank, planLines, questionLines, PlanSection);
    LayoutSection(classify, nameHeader, planHeader, questionsHeader, name, blank, planLines, questionLines, QuestionsSection);
  }

  /** One section of the layout: it holds the lines under its own header and nothing else. */
  lemma LayoutSection(classify: Classifier, nameHeader: string, planHeader: string, questionsHeader: string,
                      name: string, blank: string, planLines: seq<string>, questionLines: seq<string>, section: Section)
    requires classify(nameHeader) == Some(PlanNameSection)
    requires classify(planHeader) == Some(PlanSection)
    requires classify(questionsHeader) == Some(QuestionsSection)
    requires classify(name).None? && classify(blank).None?
    requires forall i :: 0 <= i < |planLines| ==> classify(planLines[i]).None?
    requires forall i :: 0 <= i < |questionLines| ==> classify(questionLines[i]).None?
    ensures Collected(classify, AnswerLayout(nameHeader, planHeader, questionsHeader, name, blank, planLines, questionLines), section) ==
      match section
      case PlanNameSection => [name, blank]
      case PlanSection => planLines
      case QuestionsSection => questionLines
  {
    var first := [name, blank];
    var part1 := [nameHeader] + first;
    var part2 := part1 + [planHeader] + planLines;
    var lines := part2 + [questionsHeader] + questionLines;
    assert lines == AnswerLayout(nameHeader, planHeader, questionsHeader, name, blank, planLines, questionLines);
    var c1 := if section == PlanNameSection then first else [];
    var c2 := if section == PlanSection then planLines else c1;
    var c3 := if section == QuestionsSection then questionLines else c2;
    assert Collected(classify, part1, section) == c1 by {
      PreambleDropped(classify, [], section);
      assert forall i :: 0 <= i < |first| ==> classify(first[i]).None?;
      AfterHeader(classify, [], nameHeader, first, section);
      assert [] + [nameHeader] + first == part1;
    }
    assert Collected(classify, part2, section) == c2 by {
      AfterHeader(classify, part1, planHeader, planLines, section);
    }
    assert Collected(classify, lines, section) == c3 by {
      AfterHeader(classify, part2, questionsHeader, questionLines, section);
    }
  }
}
