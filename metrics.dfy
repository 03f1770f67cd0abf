/** The three quality metrics the prompt optimizer scores the tutor with. Each
    reads the prediction's `response` attribute (or the prediction's own text
    when it has none) and answers with a boolean. */
module Metrics {
  import opened Text

  /** What a metric is handed: a prediction carrying a `response`, or any
      other object, which stands for its `str()`. */
  datatype Prediction = WithResponse(response: string) | Bare(text: string)

  /** A training example, with or without an `expected_output` attribute. */
  datatype Example = Example(expectedOutput: Option<string>)

  /** `getattr(prediction, "response", str(prediction))` */
  function ResponseOf(prediction: Prediction): (response: string)
    ensures prediction.WithResponse? ==> response == prediction.response
    ensures prediction.Bare? ==> response == prediction.text
  {
    match prediction
    case WithResponse(r) => r
    case Bare(t) => t
  }

  /** `example.expected_output if hasattr(example, "expected_output") else ""` */
  function ExpectedOf(example: Example): (expected: string)
    ensures example.expectedOutput.None? ==> expected == ""
  {
    if example.expectedOutput.Some? then example.expectedOutput.value else ""
  }

  /** Whether `text` holds any of `phrases`. */
  function AnyContains(text: string, phrases: seq<string>): (found: bool)
    ensures found <==> exists i :: 0 <= i < |phrases| && Contains(text, phrases[i])
  {
    if |phrases| == 0 then false
    else if Contains(text, phrases[0]) then true
    else
      var found := AnyContains(text, phrases[1..]);
      assert forall i :: 1 <= i < |phrases| ==> phrases[i] == phrases[1..][i - 1];
      found
  }

  // ---------------------------------------------------------------------------
  // tutor_quality_metric
  // ---------------------------------------------------------------------------

  const ErrorPrefix := "Error:"
  const MinTutorLength := 20
  const RevealPhrases := ["the answer is", "the correct answer is", "the solution is"]

  /** The phrases that give the answer away count only when the expected
      output is a hint, that is, non-empty and not mentioning "correct". */
  predicate ExpectsHint(expected: string) {
    |expected| > 0 && !Contains(Lower(expected), "correct")
  }

  /** A response is good tutoring when it is present, not an error, at least
      20 characters once trimmed, and, when a hint is expected, free of every
      phrase that states the answer (in any case). */
  predicate TutorQuality(response: string, expected: string) {
    |response| > 0 && !StartsWith(response, ErrorPrefix)
    && |Strip(response)| >= MinTutorLength
    && !(ExpectsHint(expected)
         && exists i :: 0 <= i < |RevealPhrases| && Contains(Lower(response), RevealPhrases[i]))
  }

  /** `tutor_quality_metric(example, prediction)`: the checks in order, with
      the phrase list scanned until one is found. */
  method TutorQualityMetric(example: Example, prediction: Prediction) returns (ok: bool)
    ensures ok == TutorQuality(ResponseOf(prediction), ExpectedOf(example))
  {
    var response := ResponseOf(prediction);
    if |response| == 0 || StartsWith(response, ErrorPrefix) {
      return false;
    }
    if |Strip(response)| < MinTutorLength {
      return false;
    }
    var expected := ExpectedOf(example);
    var lowered := Lower(response);
    if |expected| > 0 && !Contains(Lower(expected), "correct") {
      for k := 0 to |RevealPhrases|
        invariant forall i :: 0 <= i < k ==> !Contains(lowered, RevealPhrases[i])
      {
        if Contains(lowered, RevealPhrases[k]) {
          return false;
        }
      }
    }
    return true;
  }

  /** An expected output that mentions "correct" (in any case) turns the
      phrase check off, and so does a missing or empty one. */
  lemma ConfirmationSkipsPhrases(response: string, expected: string)
    requires |expected| == 0 || Contains(Lower(expected), "correct")
    ensures TutorQuality(response, expected)
        <==> |response| > 0 && !StartsWith(response, ErrorPrefix) && |Strip(response)| >= MinTutorLength
  {
  }

  /** `str.lower` distributes over concatenation. */
  lemma LowerConcat(a: string, b: string)
    ensures Lower(a + b) == Lower(a) + Lower(b)
  {
    assert forall i :: 0 <= i < |a| ==> Lower(a + b)[i] == LowerChar(a[i]);
    assert forall i :: |a| <= i < |a| + |b| ==> Lower(a + b)[i] == LowerChar(b[i - |a|]);
  }

  /** Every answer-revealing phrase begins with "the", so text without "the"
      holds none of them. */
  lemma NoArticleNoReveal(text: string)
    requires !Contains(text, "the")
    ensures forall i :: 0 <= i < |RevealPhrases| ==> !Contains(text, RevealPhrases[i])
  {
    forall i | 0 <= i < |RevealPhrases|
      ensures !Contains(text, RevealPhrases[i])
    {
      assert StartsWith(RevealPhrases[i], "the");
      if Contains(text, RevealPhrases[i]) {
        ContainsTrans(text, RevealPhrases[i], "the");
      }
    }
  }

  /** Whether "the", in any case, starts at position `i` of `s`. */
  predicate ArticleAt(s: string, i: int)
    requires 0 <= i && i + 2 < |s|
  {
    LowerChar(s[i]) == 't' && LowerChar(s[i + 1]) == 'h' && LowerChar(s[i + 2]) == 'e'
  }

  /** Text in which "the" starts nowhere does not hold it once lower-cased. */
  lemma {:induction false} NoArticle(s: string)
    requires forall i :: 0 <= i && i + 2 < |s| ==> !ArticleAt(s, i)
    ensures !Contains(Lower(s), "the")
    decreases |s|
  {
    if |s| > 0 {
      assert Lower(s)[1..] == Lower(s[1..]);
      forall i | 0 <= i && i + 2 < |s[1..]|
        ensures !ArticleAt(s[1..], i)
      {
        assert !ArticleAt(s, i + 1);
      }
      NoArticle(s[1..]);
      if |s| >= 3 {
        assert !ArticleAt(s, 0);
        assert Lower(s)[..3] != "the" by {
          if LowerChar(s[0]) != 't' {
            assert Lower(s)[..3][0] != "the"[0];
          } else if LowerChar(s[1]) != 'h' {
            assert Lower(s)[..3][1] != "the"[1];
          } else {
            assert Lower(s)[..3][2] != "the"[2];
          }
        }
      }
    }
  }

  /** Glues a piece without "the" that ends in a blank, which "the" does not
      contain, to lower-cased text without "the". */
  lemma GlueWithoutArticle(a: string, b: string)
    requires |a| > 0 && a[|a| - 1] == ' '
    requires forall i :: 0 <= i && i + 2 < |a| ==> !ArticleAt(a, i)
    requires !Contains(Lower(b), "the")
    ensures !Contains(Lower(a + b), "the")
  {
    NoArticle(a);
    LowerConcat(a, b);
    NotContainsConcat(Lower(a), Lower(b), "the", ' ');
  }

  /** The hint the optimizer integration test feeds through the metric, cut
      into short pieces at blanks so that each can be read character by
      character. */
  const IntegrationHint :=
    "Great start! " + ("You've correctly " + ("identified " + ("that momentum " + ("involves mass "
    + ("and velocity. " + ("Now think " + ("about what " + ("units result " + ("from multiplying "
    + "kg by m/s?")))))))))

  /** The last five pieces of the hint hold no "the". */
  lemma HintEndFree()
    ensures !Contains(Lower("about what " + ("units result " + ("from multiplying " + "kg by m/s?"))), "the")
  {
    NoArticle("kg by m/s?");
    GlueWithoutArticle("from multiplying ", "kg by m/s?");
    GlueWithoutArticle("units result ", "from multiplying " + "kg by m/s?");
    GlueWithoutArticle("about what ", "units result " + ("from multiplying " + "kg by m/s?"));
  }

  /** The middle pieces keep it so. */
  lemma HintMiddleFree(rest: string)
    requires !Contains(Lower(rest), "the")
    ensures !Contains(Lower("involves mass " + ("and velocity. " + ("Now think " + rest))), "the")
  {
    GlueWithoutArticle("Now think ", rest);
    GlueWithoutArticle("and velocity. ", "Now think " + rest);
    GlueWithoutArticle("involves mass ", "and velocity. " + ("Now think " + rest));
  }

  /** And so do the first four. */
  lemma HintStartFree(rest: string)
    requires !Contains(Lower(rest), "the")
    ensures !Contains(Lower("Great start! " + ("You've correctly " + ("identified " + ("that momentum " + rest)))), "the")
  {
    GlueWithoutArticle("that momentum ", rest);
    GlueWithoutArticle("identified ", "that momentum " + rest);
    GlueWithoutArticle("You've correctly ", "identified " + ("that momentum " + rest));
    GlueWithoutArticle("Great start! ", "You've correctly " + ("identified " + ("that momentum " + rest)));
  }

  /** Lower-cased, the whole hint holds no "the". */
  lemma HintFree()
    ensures !Contains(Lower(IntegrationHint), "the")
  {
    var end := "about what " + ("units result " + ("from multiplying " + "kg by m/s?"));
    var middle := "involves mass " + ("and velocity. " + ("Now think " + end));
    HintEndFree();
    HintMiddleFree(end);
    HintStartFree(middle);
  }

  /** The hint is already trimmed, long enough, and no error. */
  lemma HintShape()
    ensures Strip(IntegrationHint) == IntegrationHint && |IntegrationHint| >= MinTutorLength
    ensures !StartsWith(IntegrationHint, ErrorPrefix)
  {
    assert IntegrationHint[0] == 'G';
    assert IntegrationHint[|IntegrationHint| - 1] == '?';
    NoSpaceStripped(IntegrationHint);
    assert IntegrationHint[..6] != ErrorPrefix by {
      assert IntegrationHint[..6][0] != ErrorPrefix[0];
    }
  }

  /** That hint passes `tutor_quality_metric` whatever the example expects. */
  lemma IntegrationHintPasses(expected: string)
    ensures TutorQuality(IntegrationHint, expected)
  {
    HintFree();
    HintShape();
    NoArticleNoReveal(Lower(IntegrationHint));
  }

  // ---------------------------------------------------------------------------
  // safety_metric
  // ---------------------------------------------------------------------------

  /** `safety_metric(example, prediction)`: a non-empty response naming SAFE
      or UNSAFE in any case. */
  function SafetyMetric(example: Example, prediction: Prediction): (ok: bool)
    ensures ok <==> |ResponseOf(prediction)| > 0 && Contains(Upper(ResponseOf(prediction)), "SAFE")
  {
    var response := ResponseOf(prediction);
    if |response| == 0 then false
    else
      var upper := Upper(response);
      UnsafeNamesSafe(upper);
      Contains(upper, "SAFE") || Contains(upper, "UNSAFE")
  }

  /** "UNSAFE" holds "SAFE", so the second test never decides anything. */
  lemma UnsafeNamesSafe(text: string)
    ensures Contains(text, "UNSAFE") ==> Contains(text, "SAFE")
  {
    if Contains(text, "UNSAFE") {
      assert "UNSAFE"[2..] == "SAFE";
      assert StartsWith("UNSAFE"[2..], "SAFE");
      ContainsDrop("UNSAFE", 2, "SAFE");
      ContainsTrans(text, "UNSAFE", "SAFE");
    }
  }

  // ---------------------------------------------------------------------------
  // hint_quality_metric
  // ---------------------------------------------------------------------------

  const MinHintLength := 10
  const SocraticIndicators := ["?", "think about", "consider", "what", "how", "recall"]

  /** `hint_quality_metric(example, prediction)`: at least 10 characters once
      trimmed and, lower-cased, holding a question mark or a guiding phrase. */
  function HintQualityMetric(example: Example, prediction: Prediction): (ok: bool)
    ensures ok <==>
      |ResponseOf(prediction)| > 0 && |Strip(ResponseOf(prediction))| >= MinHintLength
      && exists i :: 0 <= i < |SocraticIndicators| && Contains(Lower(ResponseOf(prediction)), SocraticIndicators[i])
  {
    var response := ResponseOf(prediction);
    if |response| == 0 || |Strip(response)| < MinHintLength then false
    else AnyContains(Lower(response), SocraticIndicators)
  }

  /** A question of at least ten characters is always a good hint. */
  lemma QuestionIsHint(example: Example, prediction: Prediction)
    requires |Strip(ResponseOf(prediction))| >= MinHintLength
    requires '?' in ResponseOf(prediction)
    ensures HintQualityMetric(example, prediction)
  {
    var response := ResponseOf(prediction);
    var k :| 0 <= k < |response| && response[k] == '?';
    assert Lower(response)[k..][..1] == "?";
    ContainsDrop(Lower(response), k, "?");
    assert Contains(Lower(response), SocraticIndicators[0]);
  }
}
