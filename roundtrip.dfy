/** What the tools read back out of inputs written by `build_tool_input`:
    in the order a tool expects, every value comes back; in the orders the
    agent prompts advertise for two of the tools, fields land in the wrong
    places because the tools read them by position. */
module RoundTrip {
  import opened Text
  import opened ToolInput
  import opened Conftest
  import Pedagogical
  import Diagnostic
  import Safety

  /** The blank that `" ||| "` leaves on one side of a segment, if any. */
  predicate Blank(x: string) {
    x == "" || x == " "
  }

  /** A key as the tools spell their labels: no blank in it and none in front. */
  predicate Key(key: string) {
    |key| > 0 && !IsSpace(key[0]) && ' ' !in key
  }

  /** A field whose value is trimmed and does not spell its own label. */
  predicate Own(field: (string, string)) {
    Key(field.0) && Strip(field.1) == field.1 && !Contains(field.1, field.0 + ":")
  }

  /** A field that reads back unchanged and cannot be split. */
  predicate Readable(field: (string, string)) {
    Own(field) && !Contains(field.0, Delimiter) && !Contains(field.1, Delimiter)
  }

  /** The value between the blanks of `" ||| "` does not gain a label
      without blanks. */
  lemma PaddedWithoutTag(value: string, post: string, tag: string)
    requires Blank(post) && |tag| > 0 && ' ' !in tag && !Contains(value, tag)
    ensures !Contains(" " + value + post, tag)
  {
    AbsentHeadNotContained(" ", tag);
    NotContainsConcat(" ", value, tag, ' ');
    if post == " " {
      AbsentHeadNotContained(post, tag);
      NotContainsConcat(" " + value, post, tag, ' ');
    } else {
      assert " " + value + post == " " + value;
    }
  }

  /** Deleting a label that occurs only once, right after the leading blank,
      leaves the blank and what followed the label. */
  lemma LabelRemoved(pre: string, tag: string, rest: string)
    requires Blank(pre) && |tag| > 0 && !IsSpace(tag[0]) && !Contains(rest, tag)
    ensures RemoveAll(pre + (tag + rest), tag) == pre + rest
  {
    RemoveAllSkip(pre, tag + rest, tag);
    RemoveAllFront(tag, rest);
    RemoveAllAbsent(rest, tag);
  }

  /** A segment is its blank, its label, and the padded value. */
  lemma SegmentShape(pre: string, key: string, value: string, post: string)
    ensures pre + Encode((key, value)) + post == pre + ((key + ":") + (" " + value + post))
  {
    assert Encode((key, value)) == (key + ":") + " " + value;
  }

  /** Trimming the blanks around a value leaves the trimmed value. */
  lemma StripPadded(pre: string, value: string, post: string)
    requires Blank(pre) && Blank(post)
    ensures Strip(pre + (" " + value + post)) == Strip(value)
  {
    assert pre + (" " + value + post) == (pre + " ") + value + post;
    StripAround(pre + " ", value, post);
  }

  /** Reading a segment with its own label gives back the value, provided the
      value is already trimmed and does not spell the label itself. */
  lemma FieldOfOwnEntry(pre: string, key: string, value: string, post: string)
    requires Blank(pre) && Blank(post) && Key(key)
    requires Strip(value) == value && !Contains(value, key + ":")
    ensures Field(pre + Encode((key, value)) + post, key + ":") == value
  {
    var tag := key + ":";
    var rest := " " + value + post;
    assert ' ' !in tag;
    PaddedWithoutTag(value, post, tag);
    SegmentShape(pre, key, value, post);
    LabelRemoved(pre, tag, rest);
    StripPadded(pre, value, post);
  }

  /** A label that starts with a character the key lacks cannot start
      anywhere in the part of a segment before its value. */
  lemma TagHeadNotInLead(pre: string, key: string, tag: string)
    requires Blank(pre)
    requires |tag| > 0 && tag[0] != ' ' && tag[0] != ':' && tag[0] !in key
    ensures tag[0] !in pre + key + ": "
  {
    var lead := pre + key + ": ";
    forall i | 0 <= i < |lead| ensures lead[i] != tag[0] {
      if i < |pre| {
        assert lead[i] == pre[i];
      } else if i < |pre| + |key| {
        assert lead[i] == key[i - |pre|];
      }
    }
  }

  /** Reading a segment with another tool field's label keeps the segment's
      own label in the value. */
  lemma FieldOfForeignEntry(pre: string, key: string, value: string, post: string, tag: string)
    requires Blank(pre) && Blank(post)
    requires |tag| > 0 && !IsSpace(tag[0]) && ' ' !in tag && tag[0] != ':' && tag[0] !in key
    requires !Contains(value, tag)
    ensures Field(pre + Encode((key, value)) + post, tag) == Strip(key + ": " + value)
  {
    var lead := pre + key + ": ";
    var segment := lead + (value + post);
    assert pre + Encode((key, value)) + post == segment;
    TagHeadNotInLead(pre, key, tag);
    AbsentHeadNotContained(lead, tag);
    if post == " " {
      AbsentHeadNotContained(post, tag);
      NotContainsConcat(value, post, tag, ' ');
    } else {
      assert value + post == value;
    }
    NotContainsConcat(lead, value + post, tag, ' ');
    RemoveAllAbsent(segment, tag);
    assert RemoveAll(segment, tag) == segment;
    assert segment == pre + (key + ": " + value) + post;
    StripAround(pre, key + ": " + value, post);
    assert Strip(segment) == Strip(key + ": " + value);
  }

  /** Whatever the value holds, a foreign label that cannot start before it
      leaves the segment's own key at the front of what is read. */
  lemma FieldKeepsKey(pre: string, key: string, value: string, post: string, tag: string)
    requires Blank(pre) && Key(key)
    requires |tag| > 0 && tag[0] != ' ' && tag[0] != ':' && tag[0] !in key
    ensures |Field(pre + Encode((key, value)) + post, tag)| > 0
    ensures Field(pre + Encode((key, value)) + post, tag)[0] == key[0]
  {
    var lead := pre + key + ": ";
    assert pre + Encode((key, value)) + post == lead + (value + post);
    TagHeadNotInLead(pre, key, tag);
    RemoveAllSkip(lead, value + post, tag);
    var after := key[1..] + ": " + RemoveAll(value + post, tag);
    assert lead + RemoveAll(value + post, tag) == pre + [key[0]] + after;
    StripHead(pre, key[0], after);
  }

  lemma KeyClean(key: string)
    requires '|' !in key
    ensures !Contains(key, Delimiter)
  {
    AbsentHeadNotContained(key, Delimiter);
  }

  /** The segments of a built input of three, four and five fields. */
  lemma SegmentsOfThree(f0: (string, string), f1: (string, string), f2: (string, string))
    requires Clean([f0, f1, f2])
    ensures Segments(BuildToolInput([f0, f1, f2])) == [Encode(f0) + " ", " " + Encode(f1) + " ", " " + Encode(f2)]
  {
    SplitBuild([f0, f1, f2]);
    assert Encoded([f0, f1, f2]) == [Encode(f0), Encode(f1), Encode(f2)];
    var padded := Padded([Encode(f0), Encode(f1), Encode(f2)]);
    assert padded[0] == "" + Encode(f0) + " " == Encode(f0) + " ";
    assert padded[1] == " " + Encode(f1) + " ";
    assert padded[2] == " " + Encode(f2) + "" == " " + Encode(f2);
  }

  lemma SegmentsOfFour(f0: (string, string), f1: (string, string), f2: (string, string), f3: (string, string))
    requires Clean([f0, f1, f2, f3])
    ensures Segments(BuildToolInput([f0, f1, f2, f3]))
         == [Encode(f0) + " ", " " + Encode(f1) + " ", " " + Encode(f2) + " ", " " + Encode(f3)]
  {
    SplitBuild([f0, f1, f2, f3]);
    assert Encoded([f0, f1, f2, f3]) == [Encode(f0), Encode(f1), Encode(f2), Encode(f3)];
    var padded := Padded([Encode(f0), Encode(f1), Encode(f2), Encode(f3)]);
    assert padded[0] == "" + Encode(f0) + " " == Encode(f0) + " ";
    assert padded[1] == " " + Encode(f1) + " " && padded[2] == " " + Encode(f2) + " ";
    assert padded[3] == " " + Encode(f3) + "" == " " + Encode(f3);
  }

  lemma SegmentsOfFive(f0: (string, string), f1: (string, string), f2: (string, string), f3: (string, string), f4: (string, string))
    requires Clean([f0, f1, f2, f3, f4])
    ensures |Segments(BuildToolInput([f0, f1, f2, f3, f4]))| == 5
    ensures Segments(BuildToolInput([f0, f1, f2, f3, f4]))[..3]
         == [Encode(f0) + " ", " " + Encode(f1) + " ", " " + Encode(f2) + " "]
  {
    SplitBuild([f0, f1, f2, f3, f4]);
    assert Encoded([f0, f1, f2, f3, f4]) == [Encode(f0), Encode(f1), Encode(f2), Encode(f3), Encode(f4)];
    var padded := Padded([Encode(f0), Encode(f1), Encode(f2), Encode(f3), Encode(f4)]);
    assert padded[0] == "" + Encode(f0) + " " == Encode(f0) + " ";
    assert padded[1] == " " + Encode(f1) + " " && padded[2] == " " + Encode(f2) + " ";
  }

  /** Three fields in the order a tool reads them come back as written. */
  lemma ReadBackThree(f0: (string, string), f1: (string, string), f2: (string, string))
    requires Readable(f0) && Readable(f1) && Readable(f2)
    ensures |Segments(BuildToolInput([f0, f1, f2]))| == 3
    ensures Field(Segments(BuildToolInput([f0, f1, f2]))[0], f0.0 + ":") == f0.1
    ensures Field(Segments(BuildToolInput([f0, f1, f2]))[1], f1.0 + ":") == f1.1
    ensures Field(Segments(BuildToolInput([f0, f1, f2]))[2], f2.0 + ":") == f2.1
  {
    assert Clean([f0, f1, f2]);
    SegmentsOfThree(f0, f1, f2);
    FieldOfOwnEntry("", f0.0, f0.1, " ");
    assert "" + Encode(f0) + " " == Encode(f0) + " ";
    FieldOfOwnEntry(" ", f1.0, f1.1, " ");
    FieldOfOwnEntry(" ", f2.0, f2.1, "");
    assert " " + Encode(f2) + "" == " " + Encode(f2);
  }

  /** Four fields in the order a tool reads them come back as written. */
  lemma ReadBackFour(f0: (string, string), f1: (string, string), f2: (string, string), f3: (string, string))
    requires Readable(f0) && Readable(f1) && Readable(f2) && Readable(f3)
    ensures |Segments(BuildToolInput([f0, f1, f2, f3]))| == 4
    ensures Field(Segments(BuildToolInput([f0, f1, f2, f3]))[0], f0.0 + ":") == f0.1
    ensures Field(Segments(BuildToolInput([f0, f1, f2, f3]))[1], f1.0 + ":") == f1.1
    ensures Field(Segments(BuildToolInput([f0, f1, f2, f3]))[2], f2.0 + ":") == f2.1
    ensures Field(Segments(BuildToolInput([f0, f1, f2, f3]))[3], f3.0 + ":") == f3.1
  {
    assert Clean([f0, f1, f2, f3]);
    SegmentsOfFour(f0, f1, f2, f3);
    FieldOfOwnEntry("", f0.0, f0.1, " ");
    assert "" + Encode(f0) + " " == Encode(f0) + " ";
    FieldOfOwnEntry(" ", f1.0, f1.1, " ");
    FieldOfOwnEntry(" ", f2.0, f2.1, " ");
    FieldOfOwnEntry(" ", f3.0, f3.1, "");
    assert " " + Encode(f3) + "" == " " + Encode(f3);
  }

  /** `build_tool_input(PROBLEM=..., STUDENT_WORK=..., TOPIC=...)` read by the
      student-work analyzer gives back the three values. */
  lemma AnalyzerRoundTrip(problem: (string, string), work: (string, string), topic: (string, string))
    requires problem.0 == "PROBLEM" && work.0 == "STUDENT_WORK" && topic.0 == "TOPIC"
    requires Readable(problem) && Readable(work) && Readable(topic)
    ensures Diagnostic.ParseSubmission(BuildToolInput([problem, work, topic]))
         == Some(Diagnostic.WorkSubmission(problem.1, work.1, topic.1))
  {
    ReadBackThree(problem, work, topic);
    assert problem.0 + ":" == "PROBLEM:";
    assert work.0 + ":" == "STUDENT_WORK:";
    assert topic.0 + ":" == "TOPIC:";
  }

  /** The order the answer-revelation analyzer names in its error message
      reads back as written. */
  lemma RevelationRoundTrip(problem: (string, string), answer: (string, string), response: (string, string))
    requires problem.0 == "PROBLEM" && answer.0 == "CORRECT_ANSWER" && response.0 == "PROPOSED_RESPONSE"
    requires Readable(problem) && Readable(answer) && Readable(response)
    ensures Safety.ParseRevelationCheck(BuildToolInput([problem, answer, response]))
         == Some(Safety.RevelationCheck(problem.1, answer.1, response.1))
  {
    ReadBackThree(problem, answer, response);
    assert problem.0 + ":" == "PROBLEM:";
    assert answer.0 + ":" == "CORRECT_ANSWER:";
    assert response.0 + ":" == "PROPOSED_RESPONSE:";
  }

  /** Whatever the labels, the first three of four fields read back as
      written; the fourth is never looked at. */
  lemma ReadFirstThreeOfFour(f0: (string, string), f1: (string, string), f2: (string, string), f3: (string, string))
    requires Readable(f0) && Readable(f1) && Readable(f2)
    requires !Contains(f3.0, Delimiter) && !Contains(f3.1, Delimiter)
    ensures |Segments(BuildToolInput([f0, f1, f2, f3]))| == 4
    ensures Field(Segments(BuildToolInput([f0, f1, f2, f3]))[0], f0.0 + ":") == f0.1
    ensures Field(Segments(BuildToolInput([f0, f1, f2, f3]))[1], f1.0 + ":") == f1.1
    ensures Field(Segments(BuildToolInput([f0, f1, f2, f3]))[2], f2.0 + ":") == f2.1
  {
    assert Clean([f0, f1, f2, f3]);
    SegmentsOfFour(f0, f1, f2, f3);
    FieldOfOwnEntry("", f0.0, f0.1, " ");
    assert "" + Encode(f0) + " " == Encode(f0) + " ";
    FieldOfOwnEntry(" ", f1.0, f1.1, " ");
    FieldOfOwnEntry(" ", f2.0, f2.1, " ");
  }

  /** A field after the third changes nothing the analyzer reads. */
  lemma AnalyzerIgnoresExtra(problem: (string, string), work: (string, string), topic: (string, string),
                             extra: (string, string))
    requires problem.0 == "PROBLEM" && work.0 == "STUDENT_WORK" && topic.0 == "TOPIC"
    requires Readable(problem) && Readable(work) && Readable(topic)
    requires !Contains(extra.0, Delimiter) && !Contains(extra.1, Delimiter)
    ensures Diagnostic.ParseSubmission(BuildToolInput([problem, work, topic, extra]))
         == Some(Diagnostic.WorkSubmission(problem.1, work.1, topic.1))
  {
    ReadFirstThreeOfFour(problem, work, topic, extra);
    assert problem.0 + ":" == "PROBLEM:";
    assert work.0 + ":" == "STUDENT_WORK:";
    assert topic.0 + ":" == "TOPIC:";
  }

  /** `str(n)` is trimmed, and every character is a digit or the sign. */
  lemma IntegerText(n: int)
    ensures Strip(IntToString(n)) == IntToString(n)
    ensures forall i :: 0 <= i < |IntToString(n)| ==> IntToString(n)[i] == '-' || IsDigit(IntToString(n)[i])
  {
    var m: nat := if n < 0 then -n else n;
    NatToStringDigits(m);
    var d := NatToString(m);
    assert !IsSpace(d[0]) && !IsSpace(d[|d| - 1]);
    if n < 0 {
      assert IntToString(n) == "-" + d;
    }
    NoSpaceStripped(IntToString(n));
  }

  /** `str(n)` under HINT_LEVEL reads back: it is trimmed and holds neither
      the delimiter nor a label. */
  lemma LevelReadable(level: (string, string), n: int)
    requires level.0 == "HINT_LEVEL" && level.1 == IntToString(n)
    ensures Readable(level)
  {
    IntegerText(n);
    AbsentHeadNotContained(level.1, Delimiter);
    AbsentHeadNotContained(level.1, level.0 + ":");
    KeyClean(level.0);
  }

  /** The four-field order the hint generator names in its own error message,
      with the level written as an integer, gives back every field and the
      level clamped into the tool's cap. */
  lemma HintRoundTrip(problem: (string, string), misconception: (string, string), level: (string, string),
                      topic: (string, string), n: int, cap: Pedagogical.LevelCap)
    requires problem.0 == "PROBLEM" && misconception.0 == "MISCONCEPTION" && topic.0 == "TOPIC"
    requires Readable(problem) && Readable(misconception) && Readable(topic)
    requires level.0 == "HINT_LEVEL" && level.1 == IntToString(n) && WithinStrDigits(n)
    ensures Pedagogical.ParseHintRequest(BuildToolInput([problem, misconception, level, topic]), cap)
         == Some(Pedagogical.HintRequest(problem.1, misconception.1, Pedagogical.Clamp(n, cap), topic.1))
  {
    LevelReadable(level, n);
    ReadBackFour(problem, misconception, level, topic);
    assert problem.0 + ":" == "PROBLEM:";
    assert misconception.0 + ":" == "MISCONCEPTION:";
    assert level.0 + ":" == "HINT_LEVEL:";
    assert topic.0 + ":" == "TOPIC:";
    ParseIntToString(n);
  }

  /** The five-field order the hint agent is told to use (PROBLEM, STUDENT_WORK,
      MISCONCEPTION, HINT_LEVEL, TOPIC) puts the misconception where the level
      is read, so the level is always 2, and takes the student's work, label
      and all, for the misconception. */
  lemma AdvertisedHintOrder(problem: (string, string), work: (string, string), misconception: (string, string),
                            level: (string, string), topic: (string, string), cap: Pedagogical.LevelCap)
    requires problem.0 == "PROBLEM" && Readable(problem) && work.0 == "STUDENT_WORK" && misconception.0 == "MISCONCEPTION"
    requires level.0 == "HINT_LEVEL" && topic.0 == "TOPIC"
    requires Clean([problem, work, misconception, level, topic])
    requires !Contains(work.1, "MISCONCEPTION:")
    ensures
      var request := Pedagogical.ParseHintRequest(BuildToolInput([problem, work, misconception, level, topic]), cap);
      request.Some? && request.value.level == Pedagogical.DefaultLevel
      && request.value.problem == problem.1
      && request.value.misconception == Strip(Encode(work))
  {
    SegmentsOfFive(problem, work, misconception, level, topic);
    var parts := Segments(BuildToolInput([problem, work, misconception, level, topic]));
    assert parts[0] == Encode(problem) + " " && parts[1] == " " + Encode(work) + " ";
    assert parts[2] == " " + Encode(misconception) + " ";
    FieldOfOwnEntry("", problem.0, problem.1, " ");
    assert "" + Encode(problem) + " " == parts[0];
    assert problem.0 + ":" == "PROBLEM:";
    FieldOfForeignEntry(" ", work.0, work.1, " ", "MISCONCEPTION:");
    LabelledLevelDefaults(misconception, cap);
  }

  /** A labelled MISCONCEPTION entry read where the hint level is expected
      is no integer, so the level falls back to the default. */
  lemma LabelledLevelDefaults(misconception: (string, string), cap: Pedagogical.LevelCap)
    requires misconception.0 == "MISCONCEPTION"
    ensures Pedagogical.RequestedLevel(Field(" " + Encode(misconception) + " ", "HINT_LEVEL:"), cap)
         == Pedagogical.DefaultLevel
  {
    FieldKeepsKey(" ", misconception.0, misconception.1, " ", "HINT_LEVEL:");
    ParseIntRejects(Field(" " + Encode(misconception) + " ", "HINT_LEVEL:"));
  }

  /** The four-field order the safety agent is told to use (PROBLEM,
      CORRECT_ANSWER, STUDENT_HISTORY, PROPOSED_RESPONSE) makes the analyzer
      judge the student history, label and all, as the proposed response; the
      actual proposed response is never read. */
  lemma AdvertisedSafetyOrder(problem: (string, string), answer: (string, string),
                              history: (string, string), response: (string, string))
    requires problem.0 == "PROBLEM" && answer.0 == "CORRECT_ANSWER" && Readable(problem) && Readable(answer)
    requires history.0 == "STUDENT_HISTORY" && response.0 == "PROPOSED_RESPONSE"
    requires Clean([problem, answer, history, response])
    requires !Contains(history.1, "PROPOSED_RESPONSE:")
    ensures Safety.ParseRevelationCheck(BuildToolInput([problem, answer, history, response]))
         == Some(Safety.RevelationCheck(problem.1, answer.1, Strip(Encode(history))))
  {
    SegmentsOfFour(problem, answer, history, response);
    var parts := Segments(BuildToolInput([problem, answer, history, response]));
    FieldOfOwnEntry("", problem.0, problem.1, " ");
    assert "" + Encode(problem) + " " == parts[0];
    assert problem.0 + ":" == "PROBLEM:";
    FieldOfOwnEntry(" ", answer.0, answer.1, " ");
    assert answer.0 + ":" == "CORRECT_ANSWER:";
    FieldOfForeignEntry(" ", history.0, history.1, " ", "PROPOSED_RESPONSE:");
  }

  /** A value holding `" ||| "` builds the same input as two entries, the
      second without a label. */
  lemma BuildShifted(f0: (string, string), f1: (string, string), f2: (string, string), before: string, after: string)
    requires f0.1 == before + " ||| " + after
    ensures BuildToolInput([f0, f1, f2]) == Join([Encode((f0.0, before)), after, Encode(f1), Encode(f2)], " ||| ")
  {
    var head := Encode((f0.0, before));
    var entries := [head, after, Encode(f1), Encode(f2)];
    var tail := Join([Encode(f1), Encode(f2)], " ||| ");
    assert Encoded([f0, f1, f2]) == [Encode(f0), Encode(f1), Encode(f2)];
    assert Encoded([f0, f1, f2])[1..] == [Encode(f1), Encode(f2)];
    assert BuildToolInput([f0, f1, f2]) == Encode(f0) + " ||| " + tail;
    assert entries[1..][1..] == [Encode(f1), Encode(f2)];
    assert Join(entries, " ||| ") == head + " ||| " + (after + " ||| " + tail);
    assert Encode(f0) == head + " ||| " + after;
  }

  /** A segment with no label in it reads back as its trimmed text. */
  lemma BareSegment(value: string, tag: string)
    requires |tag| > 0 && ' ' !in tag
    requires Strip(value) == value && !Contains(value, tag)
    ensures Field(" " + value + " ", tag) == value
  {
    AbsentHeadNotContained(" ", tag);
    NotContainsConcat(" ", value, tag, ' ');
    NotContainsConcat(" " + value, " ", tag, ' ');
    FieldWithoutLabel(" " + value + " ", tag);
    StripAround(" ", value, " ");
  }

  /** The segments of an input whose first value holds `" ||| "`: the part
      before it under the first label, then the part after it alone. */
  lemma ShiftedSegments(f0: (string, string), f1: (string, string), f2: (string, string), before: string, after: string)
    requires f0.1 == before + " ||| " + after
    requires !Contains(f0.0, Delimiter) && !Contains(before, Delimiter) && !Contains(after, Delimiter)
    requires !Contains(f1.0, Delimiter) && !Contains(f1.1, Delimiter)
    requires !Contains(f2.0, Delimiter) && !Contains(f2.1, Delimiter)
    ensures |Segments(BuildToolInput([f0, f1, f2]))| == 4
    ensures Segments(BuildToolInput([f0, f1, f2]))[0] == Encode((f0.0, before)) + " "
    ensures Segments(BuildToolInput([f0, f1, f2]))[1] == " " + after + " "
  {
    BuildShifted(f0, f1, f2, before, after);
    var entries := [Encode((f0.0, before)), after, Encode(f1), Encode(f2)];
    EncodeClean(f0.0, before);
    EncodeClean(f1.0, f1.1);
    EncodeClean(f2.0, f2.1);
    SplitJoined(entries);
    assert Padded(entries)[0] == "" + Encode((f0.0, before)) + " ";
  }

  /** Whatever the labels: the first segment of such an input reads back as
      the part before the delimiter, the second, under the second label, as
      the part after it. */
  lemma ShiftedFields(f0: (string, string), f1: (string, string), f2: (string, string), before: string, after: string)
    requires f0.1 == before + " ||| " + after
    requires Key(f0.0) && '|' !in f0.0 && |f1.0| > 0 && ' ' !in f1.0
    requires Strip(before) == before && !Contains(before, Delimiter) && !Contains(before, f0.0 + ":")
    requires Strip(after) == after && !Contains(after, Delimiter) && !Contains(after, f1.0 + ":")
    requires !Contains(f1.0, Delimiter) && !Contains(f1.1, Delimiter)
    requires !Contains(f2.0, Delimiter) && !Contains(f2.1, Delimiter)
    ensures |Segments(BuildToolInput([f0, f1, f2]))| == 4
    ensures Field(Segments(BuildToolInput([f0, f1, f2]))[0], f0.0 + ":") == before
    ensures Field(Segments(BuildToolInput([f0, f1, f2]))[1], f1.0 + ":") == after
  {
    KeyClean(f0.0);
    ShiftedSegments(f0, f1, f2, before, after);
    FieldOfOwnEntry("", f0.0, before, " ");
    assert "" + Encode((f0.0, before)) + " " == Encode((f0.0, before)) + " ";
    BareSegment(after, f1.0 + ":");
  }

  /** A delimiter inside the problem text shifts every later field: what
      follows it in the problem is read as the student's work. */
  lemma DelimiterInValueShifts(problem: (string, string), work: (string, string), topic: (string, string),
                               before: string, after: string)
    requires problem.0 == "PROBLEM" && problem.1 == before + " ||| " + after
    requires Strip(before) == before && !Contains(before, Delimiter) && !Contains(before, "PROBLEM:")
    requires Strip(after) == after && !Contains(after, Delimiter) && !Contains(after, "STUDENT_WORK:")
    requires work.0 == "STUDENT_WORK" && topic.0 == "TOPIC"
    requires !Contains(work.1, Delimiter) && !Contains(topic.1, Delimiter)
    ensures
      var submission := Diagnostic.ParseSubmission(BuildToolInput([problem, work, topic]));
      submission.Some? && submission.value.problem == before && submission.value.studentWork == after
  {
    KeyClean(work.0);
    KeyClean(topic.0);
    assert problem.0 + ":" == "PROBLEM:" && work.0 + ":" == "STUDENT_WORK:";
    ShiftedFields(problem, work, topic, before, after);
  }
}
