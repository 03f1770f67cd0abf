/** The diagnostic tools: `StudentWorkAnalyzerTool` asks the model to find
    the misconception in a student's work and reads a severity out of its
    reply; `ConceptExplanationGeneratorTool` has the model explain a concept
    from retrieved course materials. */
module Diagnostic {
  import opened Text
  import opened Collaborators
  import opened ToolInput

  // ---------------------------------------------------------------------------
  // _extract_severity
  // ---------------------------------------------------------------------------

  datatype Severity = Critical | Major | Minor

  /** The name the tool reports. */
  function SeverityName(s: Severity): (name: string)
    ensures name in {"Critical", "Major", "Minor"}
  {
    match s
    case Critical => "Critical"
    case Major => "Major"
    case Minor => "Minor"
  }

  /** What one line of the reply says: a line whose upper-case form holds
      "SEVERITY:" names the first of CRITICAL, MAJOR, MINOR it contains;
      any other line, or one naming none of them, says nothing. */
  function LineSeverity(line: string): Option<Severity> {
    var upper := Upper(line);
    if !Contains(upper, "SEVERITY:") then None
    else if Contains(upper, "CRITICAL") then Some(Critical)
    else if Contains(upper, "MAJOR") then Some(Major)
    else if Contains(upper, "MINOR") then Some(Minor)
    else None
  }

  /** The whole-text fallback: CRITICAL anywhere, else MINOR anywhere, else
      Major. */
  function FallbackSeverity(response: string): (severity: Severity)
    ensures severity == Critical <==> Contains(Upper(response), "CRITICAL")
    ensures severity == Minor <==> !Contains(Upper(response), "CRITICAL") && Contains(Upper(response), "MINOR")
  {
    var upper := Upper(response);
    if Contains(upper, "CRITICAL") then Critical
    else if Contains(upper, "MINOR") then Minor
    else Major
  }

  /** `_extract_severity(llm_response)`: the line scan runs only when the
      upper-cased reply holds "SEVERITY:" at all. */
  function ExtractSeverity(response: string): Severity {
    var fromLines :=
      if Contains(Upper(response), "SEVERITY:") then FirstDecided(Split(response, "\n"), LineSeverity)
      else None;
    if fromLines.Some? then fromLines.value else FallbackSeverity(response)
  }

  /** The first line that names a severity next to "SEVERITY:" decides. */
  lemma SeverityFromLine(response: string, k: nat)
    requires k < |Split(response, "\n")|
    requires LineSeverity(Split(response, "\n")[k]).Some?
    requires forall j :: 0 <= j < k ==> LineSeverity(Split(response, "\n")[j]).None?
    ensures ExtractSeverity(response) == LineSeverity(Split(response, "\n")[k]).value
  {
    UpperPartInfix(response, "\n", k, "SEVERITY:");
    FirstDecidedAt(Split(response, "\n"), LineSeverity, k);
  }

  /** When no line decides, the whole-text fallback does. */
  lemma SeverityFromFallback(response: string)
    requires forall j :: 0 <= j < |Split(response, "\n")| ==> LineSeverity(Split(response, "\n")[j]).None?
    ensures ExtractSeverity(response) == FallbackSeverity(response)
  {
    FirstDecidedNone(Split(response, "\n"), LineSeverity);
  }

  // ---------------------------------------------------------------------------
  // StudentWorkAnalyzerTool
  // ---------------------------------------------------------------------------

  const AnalysisFormatError := "ERROR: Invalid input format. Expected 'PROBLEM: ... ||| STUDENT_WORK: ... ||| TOPIC: ...'"
  const AnalysisFailure := "ERROR: Analysis failed. "
  const NoCourseMaterials := "No specific course materials found."

  datatype WorkSubmission = WorkSubmission(problem: string, studentWork: string, topic: string)

  /** The three fields, read by position from the first three segments. */
  function ParseSubmission(toolInput: string): (submission: Option<WorkSubmission>)
    ensures submission.Some? <==> |Segments(toolInput)| >= 3
  {
    var parts := Segments(toolInput);
    if |parts| < 3 then None
    else
      Some(WorkSubmission(
        Field(parts[0], "PROBLEM:"),
        Field(parts[1], "STUDENT_WORK:"),
        Field(parts[2], "TOPIC:")))
  }

  function AnalysisQuery(topic: string, problem: string): string {
    "Common errors and misconceptions in " + topic + ": " + problem
  }

  /** The `n`-th retrieved document as the prompt shows it: its number and
      its first 500 characters, followed by "...". */
  function CourseEntry(n: nat, doc: string): string {
    "[Course Material " + NatToString(n) + "]: " + SliceTo(doc, 500) + "..."
  }

  function CourseEntries(docs: seq<string>): seq<string> {
    seq(|docs|, i requires 0 <= i < |docs| => CourseEntry(i + 1, docs[i]))
  }

  /** The retrieved documents as the prompt shows them: numbered from 1, each
      cut to 500 characters and followed by "...", separated by blank lines. */
  function CourseContext(docs: seq<string>): (context: string)
    ensures |docs| == 0 <==> context == NoCourseMaterials
    ensures |docs| > 0 ==> StartsWith(context, "[Course Material 1]: " + SliceTo(docs[0], 500) + "...")
  {
    if |docs| == 0 then NoCourseMaterials
    else
      var entries := CourseEntries(docs);
      JoinHead(entries, "\n\n");
      assert NatToString(1) == "1";
      assert Join(entries, "\n\n")[0] != NoCourseMaterials[0];
      Join(entries, "\n\n")
  }

  /** A single document gives its own entry, numbered 1. */
  lemma CourseContextOne(doc: string)
    ensures CourseContext([doc]) == "[Course Material 1]: " + SliceTo(doc, 500) + "..."
  {
    assert CourseEntries([doc]) == [CourseEntry(1, doc)];
    assert NatToString(1) == "1";
  }

  /** One more document adds a blank line and its entry, numbered after the
      others, at the end: every document shows in retrieval order. */
  lemma CourseContextAppend(docs: seq<string>, doc: string)
    requires |docs| > 0
    ensures CourseContext(docs + [doc]) == CourseContext(docs) + "\n\n" + CourseEntry(|docs| + 1, doc)
  {
    var longer := CourseEntries(docs + [doc]);
    var entries := CourseEntries(docs) + [CourseEntry(|docs| + 1, doc)];
    assert |longer| == |entries|;
    forall i | 0 <= i < |longer| ensures longer[i] == entries[i] {
      if i < |docs| { assert (docs + [doc])[i] == docs[i]; }
    }
    assert longer == entries;
    JoinSnoc(CourseEntries(docs), CourseEntry(|docs| + 1, doc), "\n\n");
    assert CourseContext(docs + [doc]) == Join(longer, "\n\n");
  }

  /** Every retrieved document shows, under its own number. */
  lemma CourseContextShowsEvery(docs: seq<string>, i: nat)
    requires i < |docs|
    ensures Contains(CourseContext(docs), CourseEntry(i + 1, docs[i]))
  {
    JoinContainsPart(CourseEntries(docs), "\n\n", i);
  }

  /** `f"ANALYSIS COMPLETE - Severity: {severity}\n\n{result}"` where the
      severity is read from that same result. */
  function AnalysisOutput(result: string): (output: string)
    ensures StartsWith(output, "ANALYSIS COMPLETE - Severity: " + SeverityName(ExtractSeverity(result)) + "\n\n")
    ensures |output| == |"ANALYSIS COMPLETE - Severity: "| + |SeverityName(ExtractSeverity(result))| + 2 + |result|
    ensures output[|output| - |result|..] == result
  {
    var head := "ANALYSIS COMPLETE - Severity: " + SeverityName(ExtractSeverity(result)) + "\n\n";
    assert (head + result)[..|head|] == head;
    head + result
  }

  class StudentWorkAnalyzerTool {
    const llm: Llm
    const retriever: Retriever

    constructor(llm: Llm, retriever: Retriever)
      ensures this.llm == llm && this.retriever == retriever
    {
      this.llm := llm;
      this.retriever := retriever;
    }

    /** `use(tool_input)`: parse, retrieve course material on the topic and
        problem, ask the model for an analysis and tag it with its severity. */
    method Use(toolInput: string) returns (output: string, calls: seq<Call>)
      ensures ParseSubmission(toolInput).None? ==> output == AnalysisFormatError && calls == []
      ensures ParseSubmission(toolInput).Some? ==>
        var submission := ParseSubmission(toolInput).value;
        var query := AnalysisQuery(submission.topic, submission.problem);
        match retriever(query, RetrievalCount)
        case RetrievalRaised(message) =>
          output == AnalysisFailure + message && calls == [Retrieve(query, RetrievalCount)]
        case Retrieved(docs) =>
          var prompt := AnalysisPrompt(submission.problem, submission.studentWork, CourseContext(docs));
          calls == [Retrieve(query, RetrievalCount), Invoke(prompt)]
          && match llm(prompt)
             case Raised(message) => output == AnalysisFailure + message
             case Reply(text) => output == AnalysisOutput(Strip(text))
    {
      var parsed := ParseSubmission(toolInput);
      if parsed.None? {
        return AnalysisFormatError, [];
      }
      var submission := parsed.value;
      var query := AnalysisQuery(submission.topic, submission.problem);
      calls := [Retrieve(query, RetrievalCount)];
      var found := retriever(query, RetrievalCount);
      if found.RetrievalRaised? {
        return AnalysisFailure + found.message, calls;
      }
      var prompt := AnalysisPrompt(submission.problem, submission.studentWork, CourseContext(found.docs));
      calls := calls + [Invoke(prompt)];
      var reply := llm(prompt);
      if reply.Raised? {
        return AnalysisFailure + reply.message, calls;
      }
      output := AnalysisOutput(Strip(reply.text));
    }
  }

  // ---------------------------------------------------------------------------
  // ConceptExplanationGeneratorTool
  // ---------------------------------------------------------------------------

  const ExplanationFailure := "ERROR: Could not generate explanation. "

  function ExplanationQuery(concept: string): string {
    "Explanation of " + concept
  }

  /** The `n`-th retrieved document in full, under its number. */
  function SourceEntry(n: nat, doc: string): string {
    "[Source " + NatToString(n) + "]: " + doc
  }

  function SourceEntries(docs: seq<string>): seq<string> {
    seq(|docs|, i requires 0 <= i < |docs| => SourceEntry(i + 1, docs[i]))
  }

  /** The retrieved documents in full, numbered from 1, separated by blank
      lines. */
  function Materials(docs: seq<string>): (materials: string)
    requires |docs| > 0
    ensures StartsWith(materials, "[Source 1]: " + docs[0])
  {
    var entries := SourceEntries(docs);
    JoinHead(entries, "\n\n");
    assert NatToString(1) == "1";
    Join(entries, "\n\n")
  }

  /** A single document is shown whole, numbered 1. */
  lemma MaterialsOne(doc: string)
    ensures Materials([doc]) == "[Source 1]: " + doc
  {
    assert SourceEntries([doc]) == [SourceEntry(1, doc)];
    assert NatToString(1) == "1";
  }

  /** One more document adds a blank line and the whole document, numbered
      after the others, at the end: every document shows in retrieval order. */
  lemma MaterialsAppend(docs: seq<string>, doc: string)
    requires |docs| > 0
    ensures Materials(docs + [doc]) == Materials(docs) + "\n\n" + SourceEntry(|docs| + 1, doc)
  {
    var longer := SourceEntries(docs + [doc]);
    var entries := SourceEntries(docs) + [SourceEntry(|docs| + 1, doc)];
    assert |longer| == |entries|;
    forall i | 0 <= i < |longer| ensures longer[i] == entries[i] {
      if i < |docs| { assert (docs + [doc])[i] == docs[i]; }
    }
    assert longer == entries;
    JoinSnoc(SourceEntries(docs), SourceEntry(|docs| + 1, doc), "\n\n");
    assert Materials(docs + [doc]) == Join(longer, "\n\n");
  }

  /** Every retrieved document shows, under its own number. */
  lemma MaterialsShowsEvery(docs: seq<string>, i: nat)
    requires i < |docs|
    ensures Contains(Materials(docs), SourceEntry(i + 1, docs[i]))
  {
    JoinContainsPart(SourceEntries(docs), "\n\n", i);
  }

  class ConceptExplanationGeneratorTool {
    const llm: Llm
    const retriever: Retriever

    constructor(llm: Llm, retriever: Retriever)
      ensures this.llm == llm && this.retriever == retriever
    {
      this.llm := llm;
      this.retriever := retriever;
    }

    /** `use(tool_input)`: the whole input, trimmed, is the concept; with no
        course material the model is not asked at all. */
    method Use(toolInput: string) returns (output: string, calls: seq<Call>)
      ensures
        var concept := Strip(toolInput);
        var query := ExplanationQuery(concept);
        match retriever(query, RetrievalCount)
        case RetrievalRaised(message) =>
          output == ExplanationFailure + message && calls == [Retrieve(query, RetrievalCount)]
        case Retrieved(docs) =>
          if |docs| == 0 then
            output == "No course materials found for concept: " + concept
            && calls == [Retrieve(query, RetrievalCount)]
          else
            var prompt := SynthesisPrompt(concept, Materials(docs));
            calls == [Retrieve(query, RetrievalCount), Invoke(prompt)]
            && match llm(prompt)
               case Raised(message) => output == ExplanationFailure + message
               case Reply(text) => output == "CONCEPT: " + concept + "\n\n" + Strip(text)
    {
      var concept := Strip(toolInput);
      var query := ExplanationQuery(concept);
      calls := [Retrieve(query, RetrievalCount)];
      var found := retriever(query, RetrievalCount);
      if found.RetrievalRaised? {
        return ExplanationFailure + found.message, calls;
      }
      if |found.docs| == 0 {
        return "No course materials found for concept: " + concept, calls;
      }
      var prompt := SynthesisPrompt(concept, Materials(found.docs));
      calls := calls + [Invoke(prompt)];
      var reply := llm(prompt);
      if reply.Raised? {
        return ExplanationFailure + reply.message, calls;
      }
      output := "CONCEPT: " + concept + "\n\n" + Strip(reply.text);
    }
  }
}
