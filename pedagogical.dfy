/** The hint tools: `SocraticHintGeneratorTool` turns a diagnosed
    misconception into a hint at one of four levels of specificity, and
    `HintLevelSelectorTool` asks the model which level suits a misconception
    and reads the level back out of its reply. Level 5, the answer itself,
    does not exist. */
module Pedagogical {
  import opened Text
  import opened Collaborators
  import opened ToolInput

  /** The most specific hint level there is. */
  const MaxHintLevel := 4

  /** A level cap as `min(max_level, 4)` leaves it: never above 4, possibly
      below 1 when the caller asked for that. */
  type LevelCap = n: int | n <= MaxHintLevel

  /** `min(max_level, 4)` */
  function Cap(requested: int): (cap: LevelCap)
    ensures cap <= requested
    ensures cap == requested || cap == MaxHintLevel
  {
    if requested < MaxHintLevel then requested else MaxHintLevel
  }

  /** `max(1, min(max_level, n))` */
  function Clamp(n: int, cap: LevelCap): (level: int)
    ensures 1 <= level <= MaxHintLevel
    ensures 1 <= n <= cap ==> level == n
    ensures n < 1 ==> level == 1
    ensures n > cap ==> level == (if cap < 1 then 1 else cap)
  {
    var capped := if cap < n then cap else n;
    if capped < 1 then 1 else capped
  }

  /** The `name` of each entry of `HINT_LEVELS`. */
  function LevelName(level: int): string
    requires 1 <= level <= MaxHintLevel
  {
    if level == 1 then "STRATEGIC"
    else if level == 2 then "CONCEPTUAL"
    else if level == 3 then "PROCEDURAL"
    else "SPECIFIC"
  }

  /** The four levels have four different names. */
  lemma LevelNamesDistinct(a: int, b: int)
    requires 1 <= a <= MaxHintLevel && 1 <= b <= MaxHintLevel && a != b
    ensures LevelName(a) != LevelName(b)
  {
    assert LevelName(1)[0] == 'S' && LevelName(2)[0] == 'C' && LevelName(3)[0] == 'P' && LevelName(4)[0] == 'S';
    assert LevelName(1)[1] == 'T' && LevelName(4)[1] == 'P';
  }

  /** The level used when the HINT_LEVEL field is not an integer: conceptual. */
  const DefaultLevel := 2

  // ---------------------------------------------------------------------------
  // SocraticHintGeneratorTool
  // ---------------------------------------------------------------------------

  const HintFormatError := "ERROR: Invalid input format. Expected 'PROBLEM: ... ||| MISCONCEPTION: ... ||| HINT_LEVEL: ... ||| TOPIC: ...'"
  const HintFailure := "ERROR: Hint generation failed. "
  const NoTeachingResources := "No" + " specific teaching resources found - use general llm advice."

  datatype HintRequest = HintRequest(problem: string, misconception: string, level: int, topic: string)

  /** The level a HINT_LEVEL field selects: an integer is clamped into the
      cap, anything `int()` refuses gives the default level. */
  function RequestedLevel(field: string, cap: LevelCap): (level: int)
    ensures 1 <= level <= MaxHintLevel
  {
    match ParseInt(field)
    case Some(n) => Clamp(n, cap)
    case None => DefaultLevel
  }

  /** The four fields, read by position from the first four segments. */
  function ParseHintRequest(toolInput: string, cap: LevelCap): (request: Option<HintRequest>)
    ensures request.Some? <==> |Segments(toolInput)| >= 4
    ensures request.Some? ==> 1 <= request.value.level <= MaxHintLevel
  {
    var parts := Segments(toolInput);
    if |parts| < 4 then None
    else
      Some(HintRequest(
        Field(parts[0], "PROBLEM:"),
        Field(parts[1], "MISCONCEPTION:"),
        RequestedLevel(Field(parts[2], "HINT_LEVEL:"), cap),
        Field(parts[3], "TOPIC:")))
  }

  function TeachingQuery(topic: string, misconception: string): string {
    "Teaching strategies and hints for " + topic + ": " + misconception
  }

  /** The `n`-th retrieved document as the prompt shows it: its number and
      its first 400 characters, followed by "...". */
  function TeachingEntry(n: nat, doc: string): string {
    "[Teaching Resource " + NatToString(n) + "]: " + SliceTo(doc, 400) + "..."
  }

  function TeachingEntries(docs: seq<string>): seq<string> {
    seq(|docs|, i requires 0 <= i < |docs| => TeachingEntry(i + 1, docs[i]))
  }

  /** The retrieved documents as the prompt shows them: numbered from 1, each
      cut to 400 characters and followed by "...", separated by blank lines. */
  function TeachingContext(docs: seq<string>): (context: string)
    ensures |docs| == 0 <==> context == NoTeachingResources
    ensures |docs| > 0 ==> StartsWith(context, "[Teaching Resource 1]: " + SliceTo(docs[0], 400) + "...")
  {
    if |docs| == 0 then NoTeachingResources
    else
      var entries := TeachingEntries(docs);
      JoinHead(entries, "\n\n");
      assert NatToString(1) == "1";
      assert Join(entries, "\n\n")[0] != NoTeachingResources[0];
      Join(entries, "\n\n")
  }

  /** A single document gives its own entry, numbered 1. */
  lemma TeachingContextOne(doc: string)
    ensures TeachingContext([doc]) == "[Teaching Resource 1]: " + SliceTo(doc, 400) + "..."
  {
    assert TeachingEntries([doc]) == [TeachingEntry(1, doc)];
    assert NatToString(1) == "1";
  }

  /** One more document adds a blank line and its entry, numbered after the
      others, at the end: every document shows in retrieval order. */
  lemma TeachingContextAppend(docs: seq<string>, doc: string)
    requires |docs| > 0
    ensures TeachingContext(docs + [doc]) == TeachingContext(docs) + "\n\n" + TeachingEntry(|docs| + 1, doc)
  {
    var longer := TeachingEntries(docs + [doc]);
    var entries := TeachingEntries(docs) + [TeachingEntry(|docs| + 1, doc)];
    assert |longer| == |entries|;
    forall i | 0 <= i < |longer| ensures longer[i] == entries[i] {
      if i < |docs| { assert (docs + [doc])[i] == docs[i]; }
    }
    assert longer == entries;
    JoinSnoc(TeachingEntries(docs), TeachingEntry(|docs| + 1, doc), "\n\n");
    assert TeachingContext(docs + [doc]) == Join(longer, "\n\n");
  }

  /** Every retrieved document shows, under its own number. */
  lemma TeachingContextShowsEvery(docs: seq<string>, i: nat)
    requires i < |docs|
    ensures Contains(TeachingContext(docs), TeachingEntry(i + 1, docs[i]))
  {
    JoinContainsPart(TeachingEntries(docs), "\n\n", i);
  }

  /** `f"HINT_LEVEL_{hint_level}: {hint}"`: the level shows as the single
      digit after "HINT_LEVEL_", so a reader can always recover it. */
  function HintOutput(level: int, hint: string): (output: string)
    requires 1 <= level <= MaxHintLevel
    ensures |output| == 14 + |hint| && StartsWith(output, "HINT_LEVEL_") && output[12..14] == ": " && output[14..] == hint
    ensures '1' <= output[11] <= '4' && DigitValue(output[11]) == level
  {
    "HINT_LEVEL_" + NatToString(level) + ": " + hint
  }

  class SocraticHintGeneratorTool {
    const llm: Llm
    const retriever: Retriever
    const maxLevel: LevelCap

    constructor(llm: Llm, retriever: Retriever, maxLevel: int := 4)
      ensures this.llm == llm && this.retriever == retriever
      ensures this.maxLevel == Cap(maxLevel)
    {
      this.llm := llm;
      this.retriever := retriever;
      this.maxLevel := Cap(maxLevel);
    }

    /** `use(tool_input)`: parse, retrieve teaching material for the topic and
        misconception, ask the model for a hint at the requested level. */
    method Use(toolInput: string) returns (output: string, calls: seq<Call>)
      ensures ParseHintRequest(toolInput, maxLevel).None? ==>
        output == HintFormatError && calls == []
      ensures ParseHintRequest(toolInput, maxLevel).Some? ==>
        var request := ParseHintRequest(toolInput, maxLevel).value;
        var query := TeachingQuery(request.topic, request.misconception);
        match retriever(query, RetrievalCount)
        case RetrievalRaised(message) =>
          output == HintFailure + message && calls == [Retrieve(query, RetrievalCount)]
        case Retrieved(docs) =>
          var prompt := HintPrompt(request.problem, request.misconception, request.level,
                                   LevelName(request.level), TeachingContext(docs));
          calls == [Retrieve(query, RetrievalCount), Invoke(prompt)]
          && match llm(prompt)
             case Raised(message) => output == HintFailure + message
             case Reply(text) => output == HintOutput(request.level, Strip(text))
    {
      var parsed := ParseHintRequest(toolInput, maxLevel);
      if parsed.None? {
        return HintFormatError, [];
      }
      var request := parsed.value;
      var query := TeachingQuery(request.topic, request.misconception);
      calls := [Retrieve(query, RetrievalCount)];
      var found := retriever(query, RetrievalCount);
      if found.RetrievalRaised? {
        return HintFailure + found.message, calls;
      }
      var prompt := HintPrompt(request.problem, request.misconception, request.level,
                               LevelName(request.level), TeachingContext(found.docs));
      calls := calls + [Invoke(prompt)];
      var reply := llm(prompt);
      if reply.Raised? {
        return HintFailure + reply.message, calls;
      }
      output := HintOutput(request.level, Strip(reply.text));
    }
  }

  // ---------------------------------------------------------------------------
  // HintLevelSelectorTool and _extract_level
  // ---------------------------------------------------------------------------

  const LevelFormatError := "ERROR: Invalid input format. Expected 'MISCONCEPTION: ... ||| SEVERITY: ...'"
  const LevelFailure := "RECOMMENDED_LEVEL: 2\n\nERROR: Could not determine level. Defaulting to conceptual (Level 2). "

  /** The first ASCII digit of `s`, read as a number: `int(re.findall(r'\d', s)[0])` restricted to '0'..'9'. */
  function FirstDigit(s: string): (d: Option<nat>)
    ensures d.None? <==> forall i :: 0 <= i < |s| ==> !IsDigit(s[i])
    ensures d.Some? ==> exists i :: (0 <= i < |s| && IsDigit(s[i]) && d.value == DigitValue(s[i])
      && forall j :: 0 <= j < i ==> !IsDigit(s[j]))
    decreases |s|
  {
    if |s| == 0 then None
    else if IsDigit(s[0]) then Some(DigitValue(s[0]))
    else
      var rest := FirstDigit(s[1..]);
      assert forall i :: 1 <= i < |s| ==> s[i] == s[1..][i - 1];
      rest
  }

  /** What one line of the reply says about the level: a line whose upper-case
      form holds "RECOMMENDED_LEVEL:" and that has a digit gives that first
      digit, clamped into the cap; any other line says nothing. */
  function LineLevel(line: string, cap: LevelCap): (level: Option<int>)
    ensures level.Some? ==> 1 <= level.value <= MaxHintLevel
  {
    if Contains(Upper(line), "RECOMMENDED_LEVEL:") then
      match FirstDigit(line)
      case Some(d) => Some(Clamp(d, cap))
      case None => None
    else None
  }

  /** `f"Level {i}" in text or f"level {i}" in text` */
  predicate Mentions(text: string, i: nat) {
    Contains(text, "Level " + NatToString(i)) || Contains(text, "level " + NatToString(i))
  }

  /** The smallest level from `from` up to 4 that the text mentions. */
  function MentionedLevel(text: string, from: nat): (level: Option<int>)
    requires 1 <= from
    ensures level.Some? ==> from <= level.value <= MaxHintLevel && Mentions(text, level.value)
    ensures level.Some? ==> forall j :: from <= j < level.value ==> !Mentions(text, j)
    ensures level.None? <==> forall j :: from <= j <= MaxHintLevel ==> !Mentions(text, j)
    decreases MaxHintLevel + 1 - from
  {
    if from > MaxHintLevel then None
    else if Mentions(text, from) then Some(from)
    else MentionedLevel(text, from + 1)
  }

  /** `_extract_level(llm_response)` */
  function ExtractLevel(response: string, cap: LevelCap): (level: int)
    ensures 1 <= level <= MaxHintLevel
  {
    match FirstDecided(Split(response, "\n"), line => LineLevel(line, cap))
    case Some(level) => level
    case None =>
      match MentionedLevel(response, 1)
      case Some(level) => level
      case None => DefaultLevel
  }

  /** The first line that names a recommended level with a digit decides. */
  lemma ExtractLevelFromLine(response: string, cap: LevelCap, k: nat)
    requires k < |Split(response, "\n")|
    requires LineLevel(Split(response, "\n")[k], cap).Some?
    requires forall j :: 0 <= j < k ==> LineLevel(Split(response, "\n")[j], cap).None?
    ensures ExtractLevel(response, cap) == LineLevel(Split(response, "\n")[k], cap).value
  {
    FirstDecidedAt(Split(response, "\n"), line => LineLevel(line, cap), k);
  }

  /** Otherwise the smallest level mentioned as "Level i" or "level i" is
      returned as it is, even above the cap. */
  lemma ExtractLevelFromMention(response: string, cap: LevelCap, i: nat)
    requires forall k :: 0 <= k < |Split(response, "\n")| ==> LineLevel(Split(response, "\n")[k], cap).None?
    requires 1 <= i <= MaxHintLevel && Mentions(response, i)
    requires forall j :: 1 <= j < i ==> !Mentions(response, j)
    ensures ExtractLevel(response, cap) == i
  {
    FirstDecidedNone(Split(response, "\n"), line => LineLevel(line, cap));
  }

  /** And with neither, the level is 2. */
  lemma ExtractLevelDefault(response: string, cap: LevelCap)
    requires forall k :: 0 <= k < |Split(response, "\n")| ==> LineLevel(Split(response, "\n")[k], cap).None?
    requires forall j :: 1 <= j <= MaxHintLevel ==> !Mentions(response, j)
    ensures ExtractLevel(response, cap) == DefaultLevel
  {
    FirstDecidedNone(Split(response, "\n"), line => LineLevel(line, cap));
  }

  /** `f"RECOMMENDED_LEVEL: {level}\n\n{result}"`: the level is the single
      digit after "RECOMMENDED_LEVEL: ". */
  function RecommendationOutput(level: int, result: string): (output: string)
    requires 1 <= level <= MaxHintLevel
    ensures |output| == 22 + |result| && StartsWith(output, "RECOMMENDED_LEVEL: ") && output[20..22] == "\n\n" && output[22..] == result
    ensures '1' <= output[19] <= '4' && DigitValue(output[19]) == level
  {
    "RECOMMENDED_LEVEL: " + NatToString(level) + "\n\n" + result
  }

  class HintLevelSelectorTool {
    const llm: Llm
    const maxLevel: LevelCap

    constructor(llm: Llm, maxLevel: int := 4)
      ensures this.llm == llm && this.maxLevel == Cap(maxLevel)
    {
      this.llm := llm;
      this.maxLevel := Cap(maxLevel);
    }

    /** `use(tool_input)`: ask the model for a level and report the level it
        recommends, falling back to level 2 when the model fails. */
    method Use(toolInput: string) returns (output: string, calls: seq<Call>)
      ensures |Segments(toolInput)| < 2 ==> output == LevelFormatError && calls == []
      ensures |Segments(toolInput)| >= 2 ==>
        var prompt := LevelPrompt(Field(Segments(toolInput)[0], "MISCONCEPTION:"),
                                  Field(Segments(toolInput)[1], "SEVERITY:"));
        calls == [Invoke(prompt)]
        && match llm(prompt)
           case Raised(message) => output == LevelFailure + message
           case Reply(text) => output == RecommendationOutput(ExtractLevel(Strip(text), maxLevel), Strip(text))
    {
      var parts := Segments(toolInput);
      if |parts| < 2 {
        return LevelFormatError, [];
      }
      var misconception := Field(parts[0], "MISCONCEPTION:");
      var severity := Field(parts[1], "SEVERITY:");
      var prompt := LevelPrompt(misconception, severity);
      calls := [Invoke(prompt)];
      var reply := llm(prompt);
      if reply.Raised? {
        return LevelFailure + reply.message, calls;
      }
      var result := Strip(reply.text);
      var level := ExtractLevel(result, maxLevel);
      output := RecommendationOutput(level, result);
    }
  }

  /** A level found by mention is not clamped: with a cap of 1, a reply that
      only says "Level 3" recommends level 3. */
  lemma MentionIgnoresCap()
    ensures ExtractLevel("Level 3", Cap(1)) == 3 > Cap(1)
  {
    var reply := "Level 3";
    NoRecommendationLine(reply, Cap(1));
    MentionsThreeOnly(reply);
    ExtractLevelFromMention(reply, Cap(1), 3);
  }

  /** "Level 3" is one line, and it names no recommended level. */
  lemma NoRecommendationLine(reply: string, cap: LevelCap)
    requires reply == "Level 3"
    ensures forall k :: 0 <= k < |Split(reply, "\n")| ==> LineLevel(Split(reply, "\n")[k], cap).None?
  {
    AbsentHeadNotContained(reply, "\n");
    SplitNoSep(reply, "\n");
    ShortNotContained(Upper(reply), "RECOMMENDED_LEVEL:");
  }

  /** "Level 3" mentions level 3 and neither 1 nor 2. */
  lemma MentionsThreeOnly(reply: string)
    requires reply == "Level 3"
    ensures !Mentions(reply, 1) && !Mentions(reply, 2) && Mentions(reply, 3)
  {
    assert !Mentions(reply, 1) by {
      assert "Level " + NatToString(1) == "Level 1" && "level " + NatToString(1) == "level 1";
      SameLengthNotContained(reply, "Level 1");
      SameLengthNotContained(reply, "level 1");
    }
    assert !Mentions(reply, 2) by {
      assert "Level " + NatToString(2) == "Level 2" && "level " + NatToString(2) == "level 2";
      SameLengthNotContained(reply, "Level 2");
      SameLengthNotContained(reply, "level 2");
    }
    assert Mentions(reply, 3) by {
      assert NatToString(3) == "3";
      assert StartsWith(reply, "Level 3");
    }
  }

  // ---------------------------------------------------------------------------
  // Consequences
  // ---------------------------------------------------------------------------

  /** Clamping with the default cap: "10" gives 4, "0" and "-1" give 1. */
  lemma RequestedLevelClamps()
    ensures RequestedLevel("10", Cap(4)) == 4
    ensures RequestedLevel("0", Cap(4)) == 1
    ensures RequestedLevel("-1", Cap(4)) == 1
  {
    ParseIntToString(10);
    ParseIntToString(0);
    ParseIntToString(-1);
  }

  /** "2.5", "abc" and "" are not integers, so they give level 2. */
  lemma RequestedLevelFallback(cap: LevelCap)
    ensures RequestedLevel("2.5", cap) == DefaultLevel
    ensures RequestedLevel("abc", cap) == DefaultLevel
    ensures RequestedLevel("", cap) == DefaultLevel
  {
    assert !IsDigits("2.5") by { assert !IsDigit("2.5"[1]); }
    ParseIntRejectsHead("", 'a', "bc");
    assert "" + ['a'] + "bc" == "abc";
  }

  /** The cap only applies to integer levels: with a cap of 1, a level that is
      not an integer still comes out as 2. */
  lemma FallbackIgnoresCap()
    ensures RequestedLevel("abc", Cap(1)) == DefaultLevel > Cap(1)
  {
    RequestedLevelFallback(Cap(1));
  }

  /** A level written with more digits than `int()` accepts takes the
      `ValueError` path: level 2, whatever the cap. */
  lemma LongLevelDefaults(cap: LevelCap)
    ensures RequestedLevel(seq(MaxStrDigits + 1, i => '1'), cap) == DefaultLevel
  {
    TooManyDigits(seq(MaxStrDigits + 1, i => '1'));
  }

  /** An integer level never exceeds a cap of at least 1. */
  lemma IntegerLevelWithinCap(n: int, cap: LevelCap)
    requires 1 <= cap && WithinStrDigits(n)
    ensures RequestedLevel(IntToString(n), cap) <= cap
  {
    ParseIntToString(n);
  }
}
