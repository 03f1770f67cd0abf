# fair_llm_tutor: the deterministic text layer, in Dafny

The FAIR_LLM tutor is a multi-agent tutoring system. A manager agent hands
work to tools, and the tools talk to a language model and to a retriever
over course materials. Around those two services sits a thin layer of plain
text handling, and this project models that layer and proves what it does:

- **The `|||` tool-input protocol** (`toolinput.dfy`). A tool splits its
  input on `|||` and reads each field by position: it deletes every
  occurrence of the label it expects there and trims what is left. The
  splitting, `replace` and `strip` follow CPython exactly (`text.dfy`).
- **The tools** (`pedagogical.dfy`, `diagnostic.dfy`, `safety.dfy`):
  - `SocraticHintGeneratorTool` and `HintLevelSelectorTool`, with the
    hint-level cap, the clamp and `_extract_level`;
  - `StudentWorkAnalyzerTool` with `_extract_severity`, and
    `ConceptExplanationGeneratorTool`;
  - `AnswerRevelationAnalyzerTool` with `_extract_verdict`, and
    `SemanticAnswerMatcherTool`.

  Each tool is a class with the collaborators it was built with. Its `Use`
  method returns the tool's output together with the calls it made to the
  model and the retriever, in order.
- **The model and the retriever** (`collaborators.dfy`) are total
  functions. Each returns either a value or the exception that `use`
  catches. A prompt keeps only the values the tool interpolates into it.
- **The test fixtures** (`conftest.dfy`): the `build_tool_input`
  serializer, `MockLLM` and `MockRetriever`. `fixtures.dfy` runs each tool
  over the mocks and states what the tests then see. `roundtrip.dfy` connects the
  serializer to the tools' parsers. Three facts about which inputs read
  back are proved there:
  - which inputs read back exactly;
  - which field orders, as the agents' prompts advertise them, read back
    wrong;
  - how a `|||` inside a value shifts the fields after it.
- **The optimizer's metrics** (`metrics.dfy`): `tutor_quality_metric`,
  `safety_metric` and `hint_quality_metric`.
- **`TutorConfig`** (`config.dfy`):
  - the dataclass defaults;
  - `from_env` over an environment given as a map, a loop over `env_map`
    that `setattr`s each field whose variable converts;
  - `validate`.
- **The session** (`session.dfy`):
  - the request that `process_student_work` hands to the runner, including
    the preprocessor's mode header and answer warning;
  - `interactive_loop` as a loop over the lines typed. It is proved equal
    to a step function over the current topic and problem.

## Model

| member | source | states |
|---|---|---|
| Text.JoinSplit | tools/diagnostic_tools.py:39 | joining the pieces of `split(sep)` with `sep` gives back the text, so no character is lost or duplicated |
| Text.Split | tools/diagnostic_tools.py:39 | `str.split(sep)`: at least one piece; defined by scanning for the separator left to right, with Text.JoinSplit and Text.SplitNoSep as its partners |
| Text.JoinSnoc | tools/pedagogical_tools.py:94 | joining one more part adds the separator and that part at the end |
| Text.SplitNoSep | tools/diagnostic_tools.py:39-40 | text without the separator splits into exactly one piece, itself |
| Text.RemoveAllAbsent | tools/diagnostic_tools.py:43 | `replace(label, "")` leaves text that never contains the label unchanged |
| Text.RemoveAllFront | tools/diagnostic_tools.py:43 | an occurrence of the label at the front is dropped and the scan continues after it |
| Text.RemoveAll | tools/diagnostic_tools.py:43 | `replace(label, "")` never makes the text longer; defined by a left-to-right scan that drops each occurrence, with Text.RemoveAllAbsent, Text.RemoveAllFront and Text.RemoveAllShrinks as its partners |
| Text.RemoveAllShrinks | tools/diagnostic_tools.py:43 | the text gets shorter exactly when it contains the label |
| Text.Strip | tools/diagnostic_tools.py:43-45 | `strip()` never makes the text longer; Text.StripShape states what it keeps |
| Text.LStripShape | tools/diagnostic_tools.py:43-45 | `lstrip()` keeps a suffix of the text, drops only whitespace, and the result does not start with whitespace |
| Text.RStripShape | tools/diagnostic_tools.py:43-45 | `rstrip()` keeps a prefix of the text, drops only whitespace, and the result does not end with whitespace |
| Text.StripShape | tools/diagnostic_tools.py:43-45 | `strip()` returns a contiguous slice of the text with only whitespace on either side, and the slice neither starts nor ends with whitespace |
| Text.SliceTo | tools/pedagogical_tools.py:92 | `s[:k]` has min(k, len) elements and is a prefix of `s` (and counts from the end for negative k) |
| Text.ParseIntToString | tools/pedagogical_tools.py:82 | `int(str(n)) == n` for every n whose decimal form has at most 4300 digits, which is every n `str()` can write |
| Text.TooManyDigits | tools/pedagogical_tools.py:82 | a run of more than 4300 digits (`sys.get_int_max_str_digits()`) is a `ValueError` |
| Text.ParseInt | tools/pedagogical_tools.py:82 | `int(s)`: an optional sign and at most 4300 ASCII digits, with only the whitespace `int()` skips around them (not U+001C to U+001F), `None` for the `ValueError`; Text.ParseIntToString, Text.ParseIntRejects, Text.TooManyDigits and Text.SeparatorNotInteger are its partners |
| Text.SeparatorNotInteger | config.py:68-72 | "\x1c5" is no integer although `strip()` reduces it to "5": `int()` does not skip the separators |
| Text.ParseIntRejects | tools/pedagogical_tools.py:81-85 | text whose first character is no blank that `int()` skips, no sign and no digit is a `ValueError` |
| Text.FirstDecidedAt | tools/safety_tools.py:111-116 | a first-match line scan returns the opinion of the first line that has one |
| Text.FirstDecidedNone | tools/safety_tools.py:111-119 | the scan finds nothing exactly when no line has an opinion |
| ToolInput.Segments | tools/diagnostic_tools.py:39 | `split("|||")` gives at least one segment, and the segments joined with `|||` are the input |
| ToolInput.FieldWithoutLabel | tools/diagnostic_tools.py:43-45 | a segment that never mentions its label is only trimmed |
| ToolInput.Field | tools/diagnostic_tools.py:43-45 | `segment.replace(label, "").strip()` is never longer than the segment; ToolInput.FieldWithoutLabel and ToolInput.FieldTrimmed are its partners |
| ToolInput.FieldTrimmed | tools/diagnostic_tools.py:43-45 | a non-empty field value neither starts nor ends with whitespace |
| Pedagogical.Cap | tools/pedagogical_tools.py:66 | `min(max_level, 4)`: never above the request, and equal to it or to 4 |
| Pedagogical.LevelName | tools/pedagogical_tools.py:32-49 | the `HINT_LEVELS` names STRATEGIC, CONCEPTUAL, PROCEDURAL and SPECIFIC for levels 1 to 4; Pedagogical.LevelNamesDistinct is its partner |
| Pedagogical.LevelNamesDistinct | tools/pedagogical_tools.py:32-49 | two different levels have different names |
| Pedagogical.Clamp | tools/pedagogical_tools.py:83 | the level is in 1..4; a level within the cap is kept, one below 1 becomes 1, one above the cap becomes the cap (or 1 when the cap is below 1) |
| Pedagogical.RequestedLevel | tools/pedagogical_tools.py:81-85 | whatever the HINT_LEVEL field holds, the level is in 1..4, so the `HINT_LEVELS` lookup cannot fail |
| Pedagogical.ParseHintRequest | tools/pedagogical_tools.py:71-78 | a request exists exactly when there are at least four segments, and its level is in 1..4 |
| Pedagogical.TeachingContext | tools/pedagogical_tools.py:91-94 | the fixed fallback text exactly when no documents came back; otherwise the text starts with "[Teaching Resource 1]: ", the first document cut to 400 characters, and "..." |
| Pedagogical.TeachingContextOne | tools/pedagogical_tools.py:91-94 | one document gives exactly "[Teaching Resource 1]: ", its first 400 characters and "..." |
| Pedagogical.TeachingContextAppend | tools/pedagogical_tools.py:91-94 | one more document adds a blank line and "[Teaching Resource n]: ", its first 400 characters and "..." at the end, numbered after the others |
| Pedagogical.TeachingContextShowsEvery | tools/pedagogical_tools.py:91-94 | the i-th document shows in the context under number i+1, cut to 400 characters and followed by "..." |
| Pedagogical.HintOutput | tools/pedagogical_tools.py:133 | the output is "HINT_LEVEL_", the level's one digit, ": ", then the hint unchanged, so the level can be read back |
| Pedagogical.SocraticHintGeneratorTool.constructor | tools/pedagogical_tools.py:55-66 | keeps the model and retriever and caps `max_level` at 4 |
| Pedagogical.SocraticHintGeneratorTool.Use | tools/pedagogical_tools.py:68-136 | fewer than four segments give the format error with no call made; otherwise one retrieval of 3 documents, then one model call at the parsed level; the output is the tagged, trimmed reply, or the failure text plus the exception's message |
| Pedagogical.FirstDigit | tools/pedagogical_tools.py:209-211 | no digit gives none; otherwise the value of the first digit, with none before it |
| Pedagogical.LineLevel | tools/pedagogical_tools.py:206-212 | a deciding line always yields a level in 1..4 |
| Pedagogical.MentionedLevel | tools/pedagogical_tools.py:215-217 | the smallest i in the range with "Level i" or "level i" in the text, and none exactly when no such i exists |
| Pedagogical.ExtractLevel | tools/pedagogical_tools.py:203-220 | the extracted level is always in 1..4 |
| Pedagogical.ExtractLevelFromLine | tools/pedagogical_tools.py:206-212 | the first line holding "RECOMMENDED_LEVEL:" (any case) with a digit decides, with its first digit clamped |
| Pedagogical.ExtractLevelFromMention | tools/pedagogical_tools.py:214-217 | failing that, the smallest mentioned level is returned, unclamped |
| Pedagogical.ExtractLevelDefault | tools/pedagogical_tools.py:219-220 | with neither, the level is 2 |
| Pedagogical.RecommendationOutput | tools/pedagogical_tools.py:197 | "RECOMMENDED_LEVEL: ", the level's one digit, a blank line, then the reply unchanged |
| Pedagogical.HintLevelSelectorTool.constructor | tools/pedagogical_tools.py:152-154 | keeps the model and caps `max_level` at 4 |
| Pedagogical.HintLevelSelectorTool.Use | tools/pedagogical_tools.py:156-201 | fewer than two segments give the format error with no call made; otherwise one model call, and the output reports the level extracted from the trimmed reply, or level 2 and the exception's message |
| Pedagogical.MentionIgnoresCap | tools/pedagogical_tools.py:214-217 | with a cap of 1, the reply "Level 3" recommends level 3, above the cap |
| Pedagogical.RequestedLevelClamps | tools/pedagogical_tools.py:81-83 | with the default cap, "10" gives 4 and "0" and "-1" give 1 |
| Pedagogical.RequestedLevelFallback | tools/pedagogical_tools.py:84-85 | "2.5", "abc" and "" give level 2 |
| Pedagogical.FallbackIgnoresCap | tools/pedagogical_tools.py:84-85 | with a cap of 1, a non-integer level still gives 2: the cap is skipped on that path |
| Pedagogical.IntegerLevelWithinCap | tools/pedagogical_tools.py:82-83 | an integer level that `str()` can write never exceeds a cap of at least 1 |
| Pedagogical.LongLevelDefaults | tools/pedagogical_tools.py:81-85 | a level of more than 4300 digits takes the `ValueError` path and gives level 2, whatever the cap |
| Diagnostic.SeverityName | tools/diagnostic_tools.py:101-114 | the reported severity is one of "Critical", "Major", "Minor" |
| Diagnostic.ExtractSeverity | tools/diagnostic_tools.py:94-114 | `_extract_severity`: the first deciding "SEVERITY:" line, else the whole-text fallback; Diagnostic.SeverityFromLine and Diagnostic.SeverityFromFallback are its partners |
| Diagnostic.FallbackSeverity | tools/diagnostic_tools.py:109-114 | Critical exactly when CRITICAL appears anywhere (any case); Minor exactly when it does not and MINOR does; Major otherwise |
| Diagnostic.SeverityFromLine | tools/diagnostic_tools.py:98-106 | the first line holding "SEVERITY:" that names a severity decides, CRITICAL before MAJOR before MINOR |
| Diagnostic.SeverityFromFallback | tools/diagnostic_tools.py:98-114 | when no line decides, the whole-text fallback does |
| Diagnostic.ParseSubmission | tools/diagnostic_tools.py:39-45 | a submission exists exactly when there are at least three segments |
| Diagnostic.CourseContext | tools/diagnostic_tools.py:52-55 | "No specific course materials found." exactly when no documents came back; otherwise the text starts with "[Course Material 1]: ", the first document cut to 500 characters, and "..." |
| Diagnostic.CourseContextOne | tools/diagnostic_tools.py:52-55 | one document gives exactly "[Course Material 1]: ", its first 500 characters and "..." |
| Diagnostic.CourseContextAppend | tools/diagnostic_tools.py:52-55 | one more document adds a blank line and "[Course Material n]: ", its first 500 characters and "..." at the end, numbered after the others |
| Diagnostic.CourseContextShowsEvery | tools/diagnostic_tools.py:52-55 | the i-th document shows in the context under number i+1, cut to 500 characters and followed by "..." |
| Diagnostic.AnalysisOutput | tools/diagnostic_tools.py:86-89 | the output is "ANALYSIS COMPLETE - Severity: ", the severity extracted from that same result, a blank line and the result unchanged: it starts with that header, ends with the result, and its length is exactly the header's plus the result's |
| Diagnostic.StudentWorkAnalyzerTool.constructor | tools/diagnostic_tools.py:20-29 | keeps the model and retriever |
| Diagnostic.StudentWorkAnalyzerTool.Use | tools/diagnostic_tools.py:31-92 | fewer than three segments give the format error with no call made; otherwise one retrieval on topic and problem, then one model call; the output is the severity-tagged reply or the failure text plus the exception's message |
| Diagnostic.Materials | tools/diagnostic_tools.py:145-148 | the materials start with "[Source 1]: " and the first document in full |
| Diagnostic.MaterialsOne | tools/diagnostic_tools.py:145-148 | one document gives exactly "[Source 1]: " and the document |
| Diagnostic.MaterialsAppend | tools/diagnostic_tools.py:145-148 | one more document adds a blank line, "[Source n]: " and the whole document at the end, numbered after the others |
| Diagnostic.MaterialsShowsEvery | tools/diagnostic_tools.py:145-148 | the i-th document shows in full in the materials under number i+1 |
| Diagnostic.ConceptExplanationGeneratorTool.constructor | tools/diagnostic_tools.py:128-130 | keeps the model and retriever |
| Diagnostic.ConceptExplanationGeneratorTool.Use | tools/diagnostic_tools.py:132-169 | the concept is the trimmed input; no documents give the fixed message and the model is not called; otherwise "CONCEPT: ", the concept, a blank line and the trimmed reply |
| Safety.VerdictFromLine | tools/safety_tools.py:111-116 | the first line holding "VERDICT:" (any case) that says UNSAFE or SAFE decides, UNSAFE first |
| Safety.ExtractVerdict | tools/safety_tools.py:105-124 | `_extract_verdict`: the first deciding "VERDICT:" line, else UNSAFE exactly when "UNSAFE" appears anywhere; Safety.VerdictFromLine, Safety.VerdictFallback and Safety.NoUnsafeMeansSafe are its partners |
| Safety.VerdictFallback | tools/safety_tools.py:119-124 | with no deciding line the verdict is UNSAFE exactly when "UNSAFE" appears anywhere (any case) |
| Safety.NoUnsafeMeansSafe | tools/safety_tools.py:105-124 | a reply that never says UNSAFE is always judged SAFE |
| Safety.ParseRevelationCheck | tools/safety_tools.py:46-52 | a check exists exactly when there are at least three segments |
| Safety.RevelationOutput | tools/safety_tools.py:94-100 | the UNSAFE header exactly when the verdict is UNSAFE, the SAFE header exactly when it is SAFE, then the result unchanged; the length is exactly that header's plus the result's |
| Safety.AnswerRevelationAnalyzerTool.constructor | tools/safety_tools.py:29-36 | keeps the model |
| Safety.AnswerRevelationAnalyzerTool.Use | tools/safety_tools.py:38-103 | fewer than three segments give the format error with no call made; otherwise one model call, and the verdict-headed reply or "ERROR: Analysis failed. " plus the message |
| Safety.SimilarityOutput | tools/safety_tools.py:171-174 | the UNSAFE header exactly when the upper-cased reply holds "HIGH", the SAFE header exactly when it does not, then the reply unchanged; the length is exactly that header's plus the reply's |
| Safety.SemanticAnswerMatcherTool.constructor | tools/safety_tools.py:140-141 | keeps the model |
| Safety.SemanticAnswerMatcherTool.Use | tools/safety_tools.py:143-177 | fewer than two segments give "ERROR: Invalid input format" with no call made; otherwise one model call and the similarity-headed reply or the failure text |
| Conftest.EncodeClean | tests/conftest.py:81 | a "KEY: value" entry holds no `|||` when neither key nor value does |
| Conftest.BuildToolInput | tests/conftest.py:74-81 | the input is empty exactly when there are no fields, and otherwise starts with the first field's "KEY: value" entry |
| Conftest.SplitJoinStep | tests/conftest.py:81 | splitting one entry, the separator and the rest gives the entry padded behind, then the rest's pieces, the first padded in front |
| Conftest.SplitJoined | tests/conftest.py:81 | entries without `|||`, joined by " ||| " and split on `|||`, come back one per entry, in order, padded by the blanks around the separator |
| Conftest.PaddedCons | tests/conftest.py:81 | the padded entries are the first padded behind, then the padded rest with a blank added in front |
| Conftest.SplitBuild | tests/conftest.py:74-81 | when no key or value holds `|||`, a built input splits into exactly one segment per field, in order |
| Conftest.BuildThree | tests/conftest.py:81 | three fields are joined as "KEY: value" entries in argument order by " ||| " |
| Conftest.BuildOne | tests/conftest.py:81 | one field builds one segment with no delimiter in it |
| Conftest.BuildNone | tests/conftest.py:81 | no fields build the empty text |
| Conftest.MockLLM.constructor | tests/conftest.py:24-27 | the text is kept, the count starts at 0, and no messages are stored |
| Conftest.MockLLM.Invoke | tests/conftest.py:29-32 | the count rises by exactly one, the messages are stored, and the reply is the configured text unchanged |
| Conftest.MockRetriever.constructor | tests/conftest.py:41-44 | `documents or []`: no documents and an empty list are the same; nothing recorded yet |
| Conftest.MockRetriever.Retrieve | tests/conftest.py:46-49 | records the query and count, and returns the first min(top_k, n) documents |
| Fixtures.AnalyzerOverMocks | tests/test_diagnostic_tools.py:131-148 | the analyzer over `MockLLM` and `MockRetriever`: a malformed input gives the format error with no call; a well-formed one makes one retrieval with k = 3, never reaches the model, and returns the failure text with the keyword `TypeError` |
| Fixtures.HintGeneratorOverMocks | tests/test_pedagogical_tools.py:17-31 | the hint generator over the same mocks: a malformed input gives the format error; a well-formed one makes one retrieval with k = 3, never reaches the model, and returns the failure text with the keyword `TypeError`, which never holds "COMPLETE HINT" |
| Fixtures.FailureNotComplete | tests/test_pedagogical_tools.py:31 | the hint failure text with the keyword error does not contain "COMPLETE HINT", which the hint test asserts |
| Fixtures.ExplainerOverMocks | tools/diagnostic_tools.py:132-141 | the concept explainer over the same mocks asks for the trimmed concept with k = 3 and returns the failure text with the keyword `TypeError`, whatever the input |
| Fixtures.AnalyzerOverTopKRetriever | tests/test_diagnostic_tools.py:131-148 | with a retriever that takes the count, a well-formed input reaches the model with the first three documents as course context, and the output is the severity header of the trimmed reply followed by that reply |
| Fixtures.MatcherOverMockLlm | tools/safety_tools.py:143-177 | the answer matcher over `MockLLM(r)` reports UNSAFE exactly when r, trimmed and upper-cased, holds "HIGH", after exactly one model call |
| Fixtures.RevelationOverMockLlm | tools/safety_tools.py:38-124 | the revelation analyzer over `MockLLM(r)` reports UNSAFE exactly when the verdict read from r trimmed is UNSAFE, and SAFE whenever r never says UNSAFE, after exactly one model call |
| RoundTrip.PaddedWithoutTag | tools/diagnostic_tools.py:43 | a trimmed value without its label, followed by blanks, holds no label |
| RoundTrip.LabelRemoved | tools/diagnostic_tools.py:43 | removing the label from blanks, the label and the rest leaves the blanks and the rest |
| RoundTrip.FieldOfOwnEntry | tools/diagnostic_tools.py:43-45 | a "KEY: value" segment read under "KEY:" gives the value back when it is trimmed and never repeats its label |
| RoundTrip.TagHeadNotInLead | tools/pedagogical_tools.py:76 | a label that does not begin inside the key does not occur in the entry's lead |
| RoundTrip.FieldOfForeignEntry | tools/pedagogical_tools.py:76 | a segment read under another tool label keeps its own label: the result is the whole "KEY: value", trimmed |
| RoundTrip.FieldKeepsKey | tools/pedagogical_tools.py:77 | read under a foreign label, the result still starts with the key's first letter |
| RoundTrip.KeyClean | tests/conftest.py:81 | a key without "|" holds no delimiter |
| RoundTrip.SegmentsOfThree | tests/conftest.py:81 | the segments of a three-field input are its entries with the separator's blanks |
| RoundTrip.SegmentsOfFour | tests/conftest.py:81 | the same for four fields |
| RoundTrip.SegmentsOfFive | tests/conftest.py:81 | the same for five fields, whose first three segments are shown |
| RoundTrip.ReadBackThree | tools/diagnostic_tools.py:39-45 | three readable fields read back as written under their own labels |
| RoundTrip.ReadBackFour | tools/pedagogical_tools.py:71-78 | four readable fields read back as written under their own labels |
| RoundTrip.AnalyzerRoundTrip | tools/diagnostic_tools.py:39-45 | `build_tool_input(PROBLEM=p, STUDENT_WORK=w, TOPIC=t)` parses back to (p, w, t) when each value is trimmed, free of `|||` and of its own label |
| RoundTrip.RevelationRoundTrip | tools/safety_tools.py:46-52 | PROBLEM, CORRECT_ANSWER, PROPOSED_RESPONSE built in that order parse back as written |
| RoundTrip.ReadFirstThreeOfFour | tools/diagnostic_tools.py:39-45 | the first three of four fields read back; the fourth is not looked at |
| RoundTrip.AnalyzerIgnoresExtra | tools/diagnostic_tools.py:39-45 | a field after the third does not change what the analyzer reads |
| RoundTrip.IntegerText | tools/pedagogical_tools.py:82 | `str(n)` is trimmed and made of digits and the sign |
| RoundTrip.LevelReadable | tools/pedagogical_tools.py:77 | `str(n)` under HINT_LEVEL reads back: trimmed, no delimiter, no label |
| RoundTrip.HintRoundTrip | tools/pedagogical_tools.py:71-85 | the four-field order the tool names parses back, with the level (any integer `str()` can write) clamped into the cap |
| RoundTrip.AdvertisedHintOrder | tools/pedagogical_tools.py:75-85 | the five-field order the hint agent is told to use makes the level always 2 and the misconception the labelled student work |
| RoundTrip.LabelledLevelDefaults | tools/pedagogical_tools.py:77-85 | a labelled MISCONCEPTION entry where the level is read is no integer, so the level is 2 |
| RoundTrip.AdvertisedSafetyOrder | tools/safety_tools.py:50-52 | the four-field order the safety agent is told to use makes the analyzer judge the labelled student history; the proposed response is never read |
| RoundTrip.BuildShifted | tests/conftest.py:81 | a value holding " ||| " builds the same text as two entries, the second unlabelled |
| RoundTrip.BareSegment | tools/diagnostic_tools.py:44 | an unlabelled segment reads back as its trimmed text |
| RoundTrip.ShiftedSegments | tools/diagnostic_tools.py:39 | a `|||` inside the first value yields four segments, split at that delimiter |
| RoundTrip.ShiftedFields | tools/diagnostic_tools.py:39-45 | the first field reads as the part before the inner delimiter, the second as the part after it |
| RoundTrip.DelimiterInValueShifts | tools/diagnostic_tools.py:39-45 | a `|||` inside the problem shifts the fields: what follows it is read as the student's work |
| Metrics.AnyContains | optimize_tutor.py:121 | true exactly when some phrase occurs in the text |
| Metrics.TutorQuality | optimize_tutor.py:47-84 | the metric's test on the response and expected texts; Metrics.TutorQualityMetric, Metrics.ConfirmationSkipsPhrases and Metrics.IntegrationHintPasses are its partners |
| Metrics.TutorQualityMetric | optimize_tutor.py:47-84 | true exactly when the response is non-empty, not an error, at least 20 characters trimmed, and, when a hint is expected, free of every answer-stating phrase |
| Metrics.ConfirmationSkipsPhrases | optimize_tutor.py:77-84 | an expected output that is empty or mentions "correct" turns the phrase check off |
| Metrics.NoArticleNoReveal | optimize_tutor.py:70-74 | text without "the" holds none of the answer-stating phrases |
| Metrics.IntegrationHintPasses | optimize_tutor.py:47-84 | the integration test's momentum hint passes the metric whatever the example expects |
| Metrics.SafetyMetric | optimize_tutor.py:87-103 | true exactly when the response is non-empty and, upper-cased, holds "SAFE" |
| Metrics.UnsafeNamesSafe | optimize_tutor.py:100 | "UNSAFE" contains "SAFE", so the second test never changes the answer |
| Metrics.HintQualityMetric | optimize_tutor.py:106-121 | true exactly when the trimmed response has at least 10 characters and, lower-cased, holds a Socratic indicator |
| Metrics.QuestionIsHint | optimize_tutor.py:118-121 | a question of at least 10 characters always passes |
| Config.Put | config.py:69 | `setattr` gives the named field the value and leaves every other field as it was |
| Config.Convert | config.py:51-62 | `str` and the truthiness test never fail; only `int` can |
| Config.IndexOf | config.py:50-63 | every field has an entry in `env_map` |
| Config.EnvMapWellFormed | config.py:50-63 | each field has exactly one entry, and each converter yields a value its field can hold |
| Config.StepGet | config.py:65-72 | one round touches only its own field, and sets it to the converted value when the variable is present and converts |
| Config.ApplyEnv | config.py:65-72 | the `env_map` loop as a fold of `setattr` rounds; Config.ApplyPrefix and Config.FromEnvField are its partners |
| Config.ApplyPrefix | config.py:65-72 | after k rounds, a field whose entry came among them holds its environment value, every other field its default |
| Config.FromEnvField | config.py:46-74 | each field of `from_env`'s result is its converted variable when set and convertible, its default otherwise |
| Config.UnsetKeepsDefaults | config.py:65-67 | with none of the variables set, `from_env` gives the defaults |
| Config.QuantizedFromEnv | config.py:53 | `quantized` is true exactly when the value lower-cased is "true", "1" or "yes" |
| Config.FailedConversionKeepsDefault | config.py:68-72 | a value `int()` rejects leaves its field at the default |
| Config.IntegerFromEnv | config.py:52-62 | an integer field set to the decimal text of n, at most 4300 digits, holds n |
| Config.TextFromEnv | config.py:51-60 | a text field takes its variable's value verbatim |
| Config.DecimalOverrides | config.py:52-61 | "2000" and "5" override max_new_tokens and rag_top_k; "not_a_number" leaves 1000 |
| Config.SeparatorKeepsDefault | config.py:68-72 | "\x1c5" in FAIR_LLM_MAX_NEW_TOKENS fails `int()`, so max_new_tokens stays 1000 |
| Config.LongDigitsKeepDefault | config.py:68-72 | 4301 digits in FAIR_LLM_MAX_NEW_TOKENS fail `int()`, so max_new_tokens stays 1000 |
| Config.PositiveWarning | config.py:107-111 | each "must be positive" warning starts with its field's name |
| Config.Warnings | config.py:100-111 | the `validate` checks in order: empty model name, then max_new_tokens, rag_top_k and manager_max_steps below 1; Config.WarningsCount, Config.DefaultsValid and Config.WarningNamesField are its partners |
| Config.WarningsCount | config.py:100-111 | one warning per failed check, at most four, and none exactly when all checks pass |
| Config.DefaultsValid | config.py:26-43 | the defaults give no warning |
| Config.WarningNamesField | config.py:104-111 | every failed check leaves a warning naming its field |
| Config.UncheckedFieldsIgnored | config.py:100-111 | the fields `validate` does not check never change its warnings |
| Config.TutorConfig.constructor | config.py:21-43 | the fields hold the given values, the defaults when none are given |
| Config.TutorConfig.SetAttr | config.py:69 | the new state is the old one with exactly that field replaced |
| Config.TutorConfig.FromEnv | config.py:45-74 | a new config whose fields are `from_env` of the environment, built round by round over `env_map` |
| Config.TutorConfig.Validate | config.py:100-116 | returns exactly the warnings of the current fields, in check order, and changes no field |
| Session.BaseRequest | main.py:221-227 | the request is exactly "PROBLEM: p", a blank line, "STUDENT WORK: w", a blank line, "TOPIC: t", a blank line and the fixed instruction: each piece is stated at its own offset and the total length is 36 plus the three values' and the instruction's |
| Session.StudentRequest | main.py:229-239 | no detected mode leaves the base request; with one, the request starts with the mode header, then holds the answer warning exactly when the mode is CONCEPT_EXPLANATION and the work looks like an answer, and ends with a blank line and the base request; its length is exactly the sum of those pieces |
| Session.NoModeNoHeader | main.py:230-231 | without a detected mode the request does not start with the preprocessor header |
| Session.AnswerCheckOnlyForConcepts | main.py:233-234 | outside CONCEPT_EXPLANATION the answer-content check does not affect the request |
| Session.Classify | main.py:262-288 | each command exactly when its test holds on the trimmed line: blank when empty, quit on "quit", "exit" or "q" lower-cased, help on "help", a topic when it starts with "topic" (tested first), a problem when it starts with "problem" and not "topic", and work otherwise; the topic is the line after `[5:]` trimmed, the problem after `[7:]` trimmed, the work the trimmed line |
| Session.InteractiveLoop | main.py:257-298 | the loop's final state and events are those of the step function run from topic "general" with no problem |
| Session.Step | main.py:260-298 | one typed line: the loop stops exactly on quit, and "Exiting" is logged exactly then; only a topic or problem command changes the state, only a topic command the topic; a blank line and only it produces no event |
| Session.Run | main.py:257-298 | the loop over the lines: "Exiting" is never followed by another event |
| Session.BaseRequestReadsBack | main.py:221-227 | two requests whose values have the same lengths are equal exactly when the problem, work and topic are |
| Session.ProblemCommandSets | main.py:284-288 | a line starting with "problem" sets the problem to the line after `[7:]` trimmed, keeps the topic and logs that problem |
| Session.ProblemThenWork | main.py:284-298 | after "problem <text>", the next work reaches the runner with that problem and the topic unchanged, and the reply or error is logged |
| Session.BlankAndHelpKeepState | main.py:264-277 | blank lines and "help" change nothing and do not end the loop |
| Session.QuitEndsLoop | main.py:267-269 | "quit", "exit" and "q", in any case and trimmed, end the loop at once |
| Session.TopicBeforeProblem | main.py:279-282 | a line starting with "topic" sets the topic to the rest trimmed and leaves the problem |
| Session.BareProblemRefusesWork | main.py:284-292 | a bare "problem" leaves an empty problem, so the next submission is refused |
| Session.SubmissionForwarded | main.py:290-298 | work reaches the runner exactly when a non-empty problem is set, with the current problem and topic |
| Session.RunStopsAtQuit | main.py:260-269 | nothing after the first quit is read |

## Left out

- The prompt texts of the tools and all of the agent modules. A prompt is
  kept only as the values it interpolates. The agents' advertised input
  formats appear only in the round-trip lemmas.
- `detect_mode` and `has_answer_content` are parameters, because their
  definitions are not part of this model.
- The runner (`arun`), `asyncio`, the RAG setup and the HuggingFace adapter
  are left out. The runner is a function from request to reply or
  exception.
- `print`, `input` and logging are left out. The loop's output is a list
  of events instead.
- Session.InteractiveLoop reads a finite list of lines and stops when they
  run out. The source catches `EOFError` in its generic handler and loops
  forever, and `KeyboardInterrupt` (which ends the session) is not
  modelled.
- `TutorConfig.from_yaml` (file I/O and YAML parsing) and the logging in
  `from_env` and `validate` are left out.
- `run_optimization`, `main` and `config_export.py` are glue over external
  libraries and are left out.
- Text.ParseInt accepts an optional sign and ASCII digits with the
  whitespace `int()` skips around them. Python's `int()` also accepts underscores between digits
  and non-ASCII digits, and the model does not. Its 4300-digit limit is
  the interpreter's default; a program that changes it with
  `sys.set_int_max_str_digits` is not modelled.
- Pedagogical.FirstDigit reads the ASCII digits '0' to '9' only. Python's
  `\d` also matches other Unicode decimal digits, so a line
  "RECOMMENDED_LEVEL: ٣" gives level 3 in the source and, with no ASCII
  digit on the line, falls through to the later rules in the model.
- Text.Upper and Text.Lower map ASCII letters only. Python's `upper()` also
  turns some non-ASCII letters into ASCII ones: 'ſ' into 'S', 'ı' into 'I',
  'ß' into "SS", the ligature 'ﬁ' into "FI". Its `lower()` turns the Kelvin
  sign into 'k'. So some substring tests hold in the source and fail in the
  model:
  - Diagnostic.ExtractSeverity: "ſeverity: mınor" is a Minor line.
  - Safety.ExtractVerdict: "unſafe" in the fallback gives UNSAFE.
  - Safety.SimilarityOutput: "hıgh" gives the UNSAFE header.
  - Metrics.SafetyMetric: "ſafe" passes.
  - Metrics.HintQualityMetric: "thinK about" holds a Socratic indicator.

  The loop's commands in Session.Classify are not affected. Among the
  letters of "quit", "exit", "q", "help", "topic" and "problem", only 'i'
  comes from a non-ASCII letter, and 'İ' lowers to 'i' followed by a
  combining dot, which breaks the word. The `[5:]` and `[7:]` slices are
  taken from the line as typed, not from its lower-cased form.
- Metrics.ResponseOf models `str(prediction)` as text the caller supplies.
  The metrics' unused `trace` argument is dropped.
- Conftest.MockLLM.Invoke does not model `ainvoke`, which is async. Keyword
  arguments are ignored by the source and not modelled.
- Conftest.MockRetriever.Retrieve models the mock called positionally. The
  tools call `retrieve(query, k=3)`, and the mock names the parameter
  `top_k`, so in the source every such call raises `TypeError`.
  The Fixtures methods run each tool over that behaviour
  (Conftest.RetrievingThroughKeyword), and Fixtures.AnalyzerOverTopKRetriever
  over a retriever that takes the count as the tests expect. Even called
  correctly, the mock returns plain strings where the tools read
  `doc.page_content`, and that is not modelled either.
- Exceptions other than a collaborator's are left out. A `ValueError` from
  `int()`, for a malformed value or one of more than 4300 digits, is the
  `None` of the parse, and nothing else in the modelled code raises.

## Findings

| source | as written | input that shows it | evidently intended | confidence | as-written member | corrected member |
|---|---|---|---|---|---|---|
| tools/pedagogical_tools.py:75-85 | the hint agent is told (agents/hint_generator_agent.py:137) to send PROBLEM, STUDENT_WORK, MISCONCEPTION, HINT_LEVEL, TOPIC, but the tool reads the misconception from segment 1 and the level from segment 2 | "PROBLEM: p \|\|\| STUDENT_WORK: w \|\|\| MISCONCEPTION: m \|\|\| HINT_LEVEL: 4 \|\|\| TOPIC: t" gives level 2 and misconception "STUDENT_WORK: w" | the agent sends the four-field order the tool names (PROBLEM, MISCONCEPTION, HINT_LEVEL, TOPIC), which reads back exactly | high; not executed | RoundTrip.AdvertisedHintOrder | RoundTrip.HintRoundTrip |
| tools/safety_tools.py:50-52 | the safety agent is told (agents/safety_guard_agent.py:105-107) to send PROBLEM, CORRECT_ANSWER, STUDENT_HISTORY, PROPOSED_RESPONSE, but the tool judges segment 2 as the proposed response | "PROBLEM: p \|\|\| CORRECT_ANSWER: a \|\|\| STUDENT_HISTORY: h \|\|\| PROPOSED_RESPONSE: r" judges "STUDENT_HISTORY: h" and never reads r | the agent sends the three-field order the tool names (PROBLEM, CORRECT_ANSWER, PROPOSED_RESPONSE), which reads back exactly | high; not executed | RoundTrip.AdvertisedSafetyOrder | RoundTrip.RevelationRoundTrip |
| tools/diagnostic_tools.py:49 | the analyzer (and the hint generator at tools/pedagogical_tools.py:89 and the explainer at tools/diagnostic_tools.py:139) calls `retrieve(kb_query, k=3)`, but the retriever the tests use names the count `top_k` (tests/conftest.py:46) | `StudentWorkAnalyzerTool(MockLLM("SEVERITY: Minor\nAnalysis complete."), MockRetriever(["doc1", "doc2", "doc3"])).use(build_tool_input(PROBLEM="Find x", STUDENT_WORK="x = 5", TOPIC="algebra"))` raises `TypeError` inside `use`, so `last_top_k` stays `None` where tests/test_diagnostic_tools.py:148 expects 3 | the tools pass the count as `top_k`, reach the model with the first three documents as context, and report the severity of its reply | high; not executed | Fixtures.AnalyzerOverMocks | Fixtures.AnalyzerOverTopKRetriever |
