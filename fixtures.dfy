/** The tools run over the test fixtures: `MockLLM(text)`, which answers
    every prompt with `text`, and `MockRetriever(documents)`. The tools ask
    the retriever for `k=3` documents while the mock names that parameter
    `top_k`, so every retrieval through the mock raises before the mock's
    body runs; the last scenario shows what the tests expect instead. */
module Fixtures {
  import opened Text
  import opened Collaborators
  import opened ToolInput
  import opened Conftest
  import Pedagogical
  import Diagnostic
  import Safety

  /** `StudentWorkAnalyzerTool(MockLLM(response), MockRetriever(documents))`:
      a well-formed input never reaches the model; the output is the failure
      text with the keyword error. */
  method AnalyzerOverMocks(response: string, documents: seq<string>, toolInput: string)
    returns (output: string, calls: seq<Call>)
    ensures Diagnostic.ParseSubmission(toolInput).None? ==> output == Diagnostic.AnalysisFormatError && calls == []
    ensures Diagnostic.ParseSubmission(toolInput).Some? ==>
      output == Diagnostic.AnalysisFailure + KeywordRejected
      && |calls| == 1 && calls[0].Retrieve? && calls[0].k == RetrievalCount
  {
    var tool := new Diagnostic.StudentWorkAnalyzerTool(Replying(response), RetrievingThroughKeyword(documents));
    output, calls := tool.Use(toolInput);
  }

  /** `SocraticHintGeneratorTool(MockLLM(response), MockRetriever(documents))`:
      a well-formed input never reaches the model; the output is the failure
      text with the keyword error. */
  method HintGeneratorOverMocks(response: string, documents: seq<string>, toolInput: string)
    returns (output: string, calls: seq<Call>)
    ensures Pedagogical.ParseHintRequest(toolInput, Pedagogical.MaxHintLevel).None? ==>
      output == Pedagogical.HintFormatError && calls == []
    ensures Pedagogical.ParseHintRequest(toolInput, Pedagogical.MaxHintLevel).Some? ==>
      output == Pedagogical.HintFailure + KeywordRejected
      && |calls| == 1 && calls[0].Retrieve? && calls[0].k == RetrievalCount
      && !Contains(output, "COMPLETE HINT")
  {
    var tool := new Pedagogical.SocraticHintGeneratorTool(Replying(response), RetrievingThroughKeyword(documents));
    output, calls := tool.Use(toolInput);
    if Pedagogical.ParseHintRequest(toolInput, Pedagogical.MaxHintLevel).Some? {
      FailureNotComplete();
    }
  }

  /** The failure text holds no capital C, so it never says "COMPLETE HINT",
      which the hint tests look for. */
  lemma FailureNotComplete()
    ensures !Contains(Pedagogical.HintFailure + KeywordRejected, "COMPLETE HINT")
  {
    var text := Pedagogical.HintFailure + KeywordRejected;
    assert 'C' !in Pedagogical.HintFailure;
    assert 'C' !in "MockRetriever." && 'C' !in "retrieve() got ";
    assert 'C' !in "an unexpected " && 'C' !in "keyword argument 'k'";
    assert 'C' !in text;
    AbsentHeadNotContained(text, "COMPLETE HINT");
  }

  /** `ConceptExplanationGeneratorTool(MockLLM(response), MockRetriever(documents))`:
      whatever the concept, the model is never asked and the output is the
      failure text with the keyword error. */
  method ExplainerOverMocks(response: string, documents: seq<string>, toolInput: string)
    returns (output: string, calls: seq<Call>)
    ensures output == Diagnostic.ExplanationFailure + KeywordRejected
    ensures calls == [Retrieve(Diagnostic.ExplanationQuery(Strip(toolInput)), RetrievalCount)]
  {
    var tool := new Diagnostic.ConceptExplanationGeneratorTool(Replying(response), RetrievingThroughKeyword(documents));
    output, calls := tool.Use(toolInput);
  }

  /** The analyzer over a retriever that takes the count as `top_k`, as the
      tests expect: a well-formed input reaches the model with the first three
      documents as course context, and the output is the severity report on
      the trimmed mock reply. */
  method AnalyzerOverTopKRetriever(response: string, documents: seq<string>, toolInput: string)
    returns (output: string, calls: seq<Call>)
    ensures Diagnostic.ParseSubmission(toolInput).None? ==> output == Diagnostic.AnalysisFormatError && calls == []
    ensures Diagnostic.ParseSubmission(toolInput).Some? ==>
      var submission := Diagnostic.ParseSubmission(toolInput).value;
      StartsWith(output, "ANALYSIS COMPLETE - Severity: " + Diagnostic.SeverityName(Diagnostic.ExtractSeverity(Strip(response))) + "\n\n")
      && |output| >= |Strip(response)| && output[|output| - |Strip(response)|..] == Strip(response)
      && |calls| == 2
      && calls[1] == Invoke(AnalysisPrompt(submission.problem, submission.studentWork,
                                           Diagnostic.CourseContext(SliceTo(documents, RetrievalCount))))
  {
    var tool := new Diagnostic.StudentWorkAnalyzerTool(Replying(response), RetrievingAsTopK(documents));
    output, calls := tool.Use(toolInput);
  }

  /** `SemanticAnswerMatcherTool(MockLLM(response))` flags the response as
      UNSAFE exactly when the mock's reply says HIGH, in any case. */
  method MatcherOverMockLlm(response: string, toolInput: string) returns (output: string, calls: seq<Call>)
    ensures |Segments(toolInput)| < 2 ==> output == Safety.SimilarityFormatError
    ensures |Segments(toolInput)| >= 2 ==>
      (StartsWith(output, Safety.SimilarityUnsafe) <==> Contains(Upper(Strip(response)), "HIGH"))
      && |calls| == 1 && calls[0].Invoke?
  {
    var tool := new Safety.SemanticAnswerMatcherTool(Replying(response));
    output, calls := tool.Use(toolInput);
  }

  /** `AnswerRevelationAnalyzerTool(MockLLM(response))` reports UNSAFE
      exactly when the verdict read from the mock's reply is UNSAFE; a reply
      that never says UNSAFE is always reported SAFE. */
  method RevelationOverMockLlm(response: string, toolInput: string) returns (output: string, calls: seq<Call>)
    ensures Safety.ParseRevelationCheck(toolInput).None? ==> output == Safety.RevelationFormatError
    ensures Safety.ParseRevelationCheck(toolInput).Some? ==>
      (StartsWith(output, Safety.RevelationUnsafe) <==> Safety.ExtractVerdict(Strip(response)) == Safety.Unsafe)
      && (!Contains(Upper(Strip(response)), "UNSAFE") ==> StartsWith(output, Safety.RevelationSafe))
      && |calls| == 1 && calls[0].Invoke?
  {
    var tool := new Safety.AnswerRevelationAnalyzerTool(Replying(response));
    output, calls := tool.Use(toolInput);
    if Safety.ParseRevelationCheck(toolInput).Some? && !Contains(Upper(Strip(response)), "UNSAFE") {
      Safety.NoUnsafeMeansSafe(Strip(response));
    }
  }
}
