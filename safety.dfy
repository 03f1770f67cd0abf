/** The safety tools, which guard against a hint that gives the answer away:
    `AnswerRevelationAnalyzerTool` asks the model for a SAFE/UNSAFE verdict on
    a proposed response, `SemanticAnswerMatcherTool` asks it how similar the
    response is to the correct answer. */
module Safety {
  import opened Text
  import opened Collaborators
  import opened ToolInput

  // ---------------------------------------------------------------------------
  // _extract_verdict
  // ---------------------------------------------------------------------------

  datatype Verdict = Safe | Unsafe

  /** What one line of the reply says: a line whose upper-case form holds
      "VERDICT:" is UNSAFE if it mentions UNSAFE, else SAFE if it mentions
      SAFE; any other line says nothing. */
  function LineVerdict(line: string): Option<Verdict> {
    var upper := Upper(line);
    if !Contains(upper, "VERDICT:") then None
    else if Contains(upper, "UNSAFE") then Some(Unsafe)
    else if Contains(upper, "SAFE") then Some(Safe)
    else None
  }

  /** `_extract_verdict(llm_response)`: the first deciding line, else UNSAFE
      anywhere in the reply, else SAFE. */
  function ExtractVerdict(response: string): Verdict {
    match FirstDecided(Split(response, "\n"), LineVerdict)
    case Some(verdict) => verdict
    case None => if Contains(Upper(response), "UNSAFE") then Unsafe else Safe
  }

  /** The first line that gives a verdict decides. */
  lemma VerdictFromLine(response: string, k: nat)
    requires k < |Split(response, "\n")|
    requires LineVerdict(Split(response, "\n")[k]).Some?
    requires forall j :: 0 <= j < k ==> LineVerdict(Split(response, "\n")[j]).None?
    ensures ExtractVerdict(response) == LineVerdict(Split(response, "\n")[k]).value
  {
    FirstDecidedAt(Split(response, "\n"), LineVerdict, k);
  }

  /** With no verdict line, the reply is UNSAFE exactly when it says UNSAFE
      somewhere, in any case. */
  lemma VerdictFallback(response: string)
    requires forall j :: 0 <= j < |Split(response, "\n")| ==> LineVerdict(Split(response, "\n")[j]).None?
    ensures ExtractVerdict(response) == Unsafe <==> Contains(Upper(response), "UNSAFE")
  {
    FirstDecidedNone(Split(response, "\n"), LineVerdict);
  }

  /** A reply that never says UNSAFE, in any case, is always SAFE: no line of
      it can say UNSAFE either. */
  lemma NoUnsafeMeansSafe(response: string)
    requires !Contains(Upper(response), "UNSAFE")
    ensures ExtractVerdict(response) == Safe
  {
    var lines := Split(response, "\n");
    var decided := FirstDecided(lines, LineVerdict);
    if decided.Some? {
      var k :| 0 <= k < |lines| && decided == LineVerdict(lines[k]);
      if Contains(Upper(lines[k]), "UNSAFE") {
        UpperPartInfix(response, "\n", k, "UNSAFE");
      }
    }
  }

  // ---------------------------------------------------------------------------
  // AnswerRevelationAnalyzerTool
  // ---------------------------------------------------------------------------

  const RevelationFormatError := "ERROR: Invalid input format. Expected 'PROBLEM: ... ||| CORRECT_ANSWER: ... ||| PROPOSED_RESPONSE: ...'"
  const SafetyFailure := "ERROR: Analysis failed. "
  const RevelationUnsafe := "UNSAFE - Answer revelation detected.\n\n"
  const RevelationSafe := "SAFE - Response does not reveal answer.\n\n"

  datatype RevelationCheck = RevelationCheck(problem: string, correctAnswer: string, proposedResponse: string)

  /** The three fields, read by position from the first three segments. */
  function ParseRevelationCheck(toolInput: string): (check: Option<RevelationCheck>)
    ensures check.Some? <==> |Segments(toolInput)| >= 3
  {
    var parts := Segments(toolInput);
    if |parts| < 3 then None
    else
      Some(RevelationCheck(
        Field(parts[0], "PROBLEM:"),
        Field(parts[1], "CORRECT_ANSWER:"),
        Field(parts[2], "PROPOSED_RESPONSE:")))
  }

  /** The reply under the header of its verdict. */
  function RevelationOutput(result: string): (output: string)
    ensures StartsWith(output, RevelationUnsafe) <==> ExtractVerdict(result) == Unsafe
    ensures StartsWith(output, RevelationSafe) <==> ExtractVerdict(result) == Safe
    ensures |output| == (if ExtractVerdict(result) == Unsafe then |RevelationUnsafe| else |RevelationSafe|) + |result|
    ensures output[|output| - |result|..] == result
  {
    var head := if ExtractVerdict(result) == Unsafe then RevelationUnsafe else RevelationSafe;
    assert (head + result)[..|head|] == head;
    assert RevelationUnsafe[0] != RevelationSafe[0];
    head + result
  }

  class AnswerRevelationAnalyzerTool {
    const llm: Llm

    constructor(llm: Llm)
      ensures this.llm == llm
    {
      this.llm := llm;
    }

    /** `use(tool_input)`: ask the model whether the proposed response gives
        the answer away, and head its reply with the verdict read from it. */
    method Use(toolInput: string) returns (output: string, calls: seq<Call>)
      ensures ParseRevelationCheck(toolInput).None? ==> output == RevelationFormatError && calls == []
      ensures ParseRevelationCheck(toolInput).Some? ==>
        var check := ParseRevelationCheck(toolInput).value;
        var prompt := RevelationPrompt(check.problem, check.correctAnswer, check.proposedResponse);
        calls == [Invoke(prompt)]
        && match llm(prompt)
           case Raised(message) => output == SafetyFailure + message
           case Reply(text) => output == RevelationOutput(Strip(text))
    {
      var parsed := ParseRevelationCheck(toolInput);
      if parsed.None? {
        return RevelationFormatError, [];
      }
      var check := parsed.value;
      var prompt := RevelationPrompt(check.problem, check.correctAnswer, check.proposedResponse);
      calls := [Invoke(prompt)];
      var reply := llm(prompt);
      if reply.Raised? {
        return SafetyFailure + reply.message, calls;
      }
      output := RevelationOutput(Strip(reply.text));
    }
  }

  // ---------------------------------------------------------------------------
  // SemanticAnswerMatcherTool
  // ---------------------------------------------------------------------------

  const SimilarityFormatError := "ERROR: Invalid input format"
  const SimilarityUnsafe := "UNSAFE" + " - High semantic similarity to answer.\n\n"
  const SimilaritySafe := "SAFE - Low semantic similarity.\n\n"

  /** The reply under UNSAFE exactly when it says HIGH anywhere, in any case. */
  function SimilarityOutput(result: string): (output: string)
    ensures StartsWith(output, SimilarityUnsafe) <==> Contains(Upper(result), "HIGH")
    ensures StartsWith(output, SimilaritySafe) <==> !Contains(Upper(result), "HIGH")
    ensures |output| == (if Contains(Upper(result), "HIGH") then |SimilarityUnsafe| else |SimilaritySafe|) + |result|
    ensures output[|output| - |result|..] == result
  {
    var head := if Contains(Upper(result), "HIGH") then SimilarityUnsafe else SimilaritySafe;
    assert (head + result)[..|head|] == head;
    assert SimilarityUnsafe[0] != SimilaritySafe[0];
    head + result
  }

  class SemanticAnswerMatcherTool {
    const llm: Llm

    constructor(llm: Llm)
      ensures this.llm == llm
    {
      this.llm := llm;
    }

    /** `use(tool_input)`: correct answer and proposed response are segments
        0 and 1. */
    method Use(toolInput: string) returns (output: string, calls: seq<Call>)
      ensures |Segments(toolInput)| < 2 ==> output == SimilarityFormatError && calls == []
      ensures |Segments(toolInput)| >= 2 ==>
        var prompt := SimilarityPrompt(Field(Segments(toolInput)[0], "CORRECT_ANSWER:"),
                                       Field(Segments(toolInput)[1], "PROPOSED_RESPONSE:"));
        calls == [Invoke(prompt)]
        && match llm(prompt)
           case Raised(message) => output == SafetyFailure + message
           case Reply(text) => output == SimilarityOutput(Strip(text))
    {
      var parts := Segments(toolInput);
      if |parts| < 2 {
        return SimilarityFormatError, [];
      }
      var correctAnswer := Field(parts[0], "CORRECT_ANSWER:");
      var proposedResponse := Field(parts[1], "PROPOSED_RESPONSE:");
      var prompt := SimilarityPrompt(correctAnswer, proposedResponse);
      calls := [Invoke(prompt)];
      var reply := llm(prompt);
      if reply.Raised? {
        return SafetyFailure + reply.message, calls;
      }
      output := SimilarityOutput(Strip(reply.text));
    }
  }
}
