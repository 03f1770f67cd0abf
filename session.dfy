/** The tutor session: how a submission becomes the request handed to the
    multi-agent runner, and the interactive loop that reads commands and
    submissions line by line. The mode detector and the answer-content check
    belong to the manager agent and are parameters here; the runner is a
    function from request to reply (or to the exception it raised). */
module Session {
  import opened Text
  import opened Collaborators

  /** The manager agent's `detect_mode(student_work)`. */
  type ModeDetector = string -> Option<string>
  /** The manager agent's `has_answer_content(student_work)`. */
  type AnswerCheck = string -> bool
  /** `runner.arun(request)` */
  type Runner = string -> Completion

  // ---------------------------------------------------------------------------
  // process_student_work
  // ---------------------------------------------------------------------------

  const Instruction :=
    "Please analyze the student's work, identify any misconceptions, and provide an appropriate hint or concept explanation. Remember: NEVER reveal the answer!"

  /** The request before any preprocessor prefix: the problem, the student's
      work and the topic, each on its own labelled line followed by a blank
      line, then the fixed instruction. Each value sits at a position fixed
      by the lengths of the values before it. */
  function BaseRequest(problem: string, work: string, topic: string): (request: string)
    ensures |request| == 36 + |problem| + |work| + |topic| + |Instruction|
    ensures request[..11 + |problem|] == "PROBLEM: " + problem + "\n\n"
    ensures request[11 + |problem|..27 + |problem| + |work|] == "STUDENT WORK: " + work + "\n\n"
    ensures request[27 + |problem| + |work|..36 + |problem| + |work| + |topic|] == "TOPIC: " + topic + "\n\n"
    ensures request[36 + |problem| + |work| + |topic|..] == Instruction
  {
    var head := "PROBLEM: " + problem + "\n\n";
    var workLine := "STUDENT WORK: " + work + "\n\n";
    var topicLine := "TOPIC: " + topic + "\n\n";
    var request := head + (workLine + (topicLine + Instruction));
    assert request[..|head|] == head;
    assert request[|head|..] == workLine + (topicLine + Instruction);
    assert (workLine + (topicLine + Instruction))[..|workLine|] == workLine;
    assert (workLine + (topicLine + Instruction))[|workLine|..] == topicLine + Instruction;
    assert (topicLine + Instruction)[..|topicLine|] == topicLine;
    request
  }

  /** The problem, the work and the topic can be read back from the request:
      two requests built from values of the same lengths are equal exactly
      when the values are. */
  lemma BaseRequestReadsBack(problem: string, work: string, topic: string,
                             problem': string, work': string, topic': string)
    requires |problem| == |problem'| && |work| == |work'| && |topic| == |topic'|
    ensures BaseRequest(problem, work, topic) == BaseRequest(problem', work', topic')
        <==> problem == problem' && work == work' && topic == topic'
  {
    var r, r' := BaseRequest(problem, work, topic), BaseRequest(problem', work', topic');
    if r == r' {
      var p := |problem|;
      var w := |work|;
      var t := |topic|;
      assert ("PROBLEM: " + problem + "\n\n")[9..9 + p] == problem;
      assert ("PROBLEM: " + problem' + "\n\n")[9..9 + p] == problem';
      assert r[..11 + p] == r'[..11 + p];
      assert ("STUDENT WORK: " + work + "\n\n")[14..14 + w] == work;
      assert ("STUDENT WORK: " + work' + "\n\n")[14..14 + w] == work';
      assert r[11 + p..27 + p + w] == r'[11 + p..27 + p + w];
      assert ("TOPIC: " + topic + "\n\n")[7..7 + t] == topic;
      assert ("TOPIC: " + topic' + "\n\n")[7..7 + t] == topic';
      assert r[27 + p + w..36 + p + w + t] == r'[27 + p + w..36 + p + w + t];
    }
  }

  const ModeHeader := "PREPROCESSOR DETECTED MODE: "
  const ConceptMode := "CONCEPT_EXPLANATION"
  /** The warning line added when a concept question looks like an answer. */
  const AnswerWarning := "\n" + "PREPROCESSOR WARNING: " + "Answer-like content detected. SafetyGuard REQUIRED."

  /** Whether Python would take the detected mode as true: present and
      non-empty. */
  predicate Detected(mode: Option<string>) {
    mode.Some? && mode.value != ""
  }

  /** A header, an optional warning, a blank line and a base text: the
      header comes first, the base last, and the warning follows the header
      exactly when it was included, given that its second character is no
      line break. */
  lemma PrefixedShape(header: string, warning: string, base: string, warned: bool)
    requires |warning| >= 2 && warning[1] != '\n'
    ensures var request := header + (if warned then warning else "") + ("\n\n" + base);
      StartsWith(request, header)
      && |request| == |header| + (if warned then |warning| else 0) + 2 + |base|
      && request[|request| - |base| - 2..] == "\n\n" + base
      && (StartsWith(request[|header|..], warning) <==> warned)
  {
    var request := header + (if warned then warning else "") + ("\n\n" + base);
    assert request[..|header|] == header;
    assert request[|request| - |base| - 2..] == "\n\n" + base;
    if warned {
      assert request[|header|..] == warning + ("\n\n" + base);
    } else {
      assert request[|header|..] == "\n\n" + base;
      assert request[|header|..][1] == '\n';
    }
  }

  /** The request `process_student_work` hands to the runner: without a
      detected mode it is the base request; with one, the mode header, the
      answer warning when the mode is CONCEPT_EXPLANATION and the work looks
      like an answer, a blank line, and the base request. */
  function StudentRequest(problem: string, work: string, topic: string,
                          detectMode: ModeDetector, hasAnswerContent: AnswerCheck): (request: string)
    ensures !Detected(detectMode(work)) ==> request == BaseRequest(problem, work, topic)
    ensures Detected(detectMode(work)) ==>
      var header := ModeHeader + detectMode(work).value;
      var base := BaseRequest(problem, work, topic);
      var warned := detectMode(work).value == ConceptMode && hasAnswerContent(work);
      StartsWith(request, header)
      && |request| == |header| + (if warned then |AnswerWarning| else 0) + 2 + |base|
      && request[|request| - |base| - 2..] == "\n\n" + base
      && (StartsWith(request[|header|..], AnswerWarning)
          <==> detectMode(work).value == ConceptMode && hasAnswerContent(work))
  {
    var base := BaseRequest(problem, work, topic);
    var mode := detectMode(work);
    if !Detected(mode) then base
    else
      var header := ModeHeader + mode.value;
      var warned := mode.value == ConceptMode && hasAnswerContent(work);
      assert AnswerWarning[1] == 'P';
      PrefixedShape(header, AnswerWarning, base, warned);
      header + (if warned then AnswerWarning else "") + ("\n\n" + base)
  }

  /** Without a detected mode the request does not begin with the
      preprocessor's header at all. */
  lemma NoModeNoHeader(problem: string, work: string, topic: string,
                       detectMode: ModeDetector, hasAnswerContent: AnswerCheck)
    requires !Detected(detectMode(work))
    ensures !StartsWith(StudentRequest(problem, work, topic, detectMode, hasAnswerContent), "PREPROCESSOR DETECTED MODE:")
  {
    var request := StudentRequest(problem, work, topic, detectMode, hasAnswerContent);
    assert StartsWith(request, "PROBLEM: " + problem + "\n\n");
    assert request[2] == 'O';
  }

  /** The answer-content check matters only in CONCEPT_EXPLANATION mode. */
  lemma AnswerCheckOnlyForConcepts(problem: string, work: string, topic: string,
                                   detectMode: ModeDetector, check1: AnswerCheck, check2: AnswerCheck)
    requires detectMode(work) != Some(ConceptMode)
    ensures StudentRequest(problem, work, topic, detectMode, check1)
         == StudentRequest(problem, work, topic, detectMode, check2)
  {
  }

  // ---------------------------------------------------------------------------
  // interactive_loop
  // ---------------------------------------------------------------------------

  /** The topic and the problem the student has set. */
  datatype SessionState = SessionState(topic: string, problem: Option<string>)

  const InitialState := SessionState("general", None)

  /** What one input line is taken for, in the order the loop tests it. */
  datatype Command =
    | Blank
    | Quit
    | Help
    | SetTopic(topic: string)
    | SetProblem(problem: string)
    | Submission(work: string)

  const QuitWords := ["quit", "exit", "q"]

  /** `input().strip()` classified: empty, a quit word or "help" in any case,
      a line starting with "topic" or else "problem" in any case (the rest of
      the line, trimmed, is the argument), or the student's work. */
  function Classify(line: string): (command: Command)
    ensures command == Blank <==> Strip(line) == ""
    ensures command == Quit <==> Lower(Strip(line)) in QuitWords
    ensures command == Help <==> Lower(Strip(line)) == "help"
    ensures command.SetTopic? <==> StartsWith(Lower(Strip(line)), "topic")
    ensures command.SetTopic? ==> command.topic == Strip(Strip(line)[5..])
    ensures command.SetProblem? <==> StartsWith(Lower(Strip(line)), "problem") && !StartsWith(Lower(Strip(line)), "topic")
    ensures command.SetProblem? ==> command.problem == Strip(Strip(line)[7..])
    ensures command.Submission? <==>
      Strip(line) != "" && Lower(Strip(line)) !in QuitWords && Lower(Strip(line)) != "help"
      && !StartsWith(Lower(Strip(line)), "topic") && !StartsWith(Lower(Strip(line)), "problem")
    ensures command.Submission? ==> command.work == Strip(line)
  {
    var input := Strip(line);
    var lowered := Lower(input);
    if input == "" then Blank
    else if lowered in QuitWords then Quit
    else if lowered == "help" then Help
    else if StartsWith(lowered, "topic") then SetTopic(Strip(input[5..]))
    else if StartsWith(lowered, "problem") then SetProblem(Strip(input[7..]))
    else Submission(input)
  }

  /** What the loop shows or does for one line. */
  datatype Event =
    | Exiting
    | ShowHelp
    | TopicSet(topic: string)
    | ProblemSet(problem: string)
    | NeedProblem
    | TutorResponse(response: string)
    | ErrorLogged(message: string)

  datatype StepResult = StepResult(state: SessionState, events: seq<Event>, stop: bool)

  /** Whether a problem is set: `not current_problem` is false. */
  predicate HasProblem(state: SessionState) {
    state.problem.Some? && state.problem.value != ""
  }

  /** One pass of the `while True` body. An exception from the runner is
      logged and the loop goes on. */
  function Step(state: SessionState, line: string,
                detectMode: ModeDetector, hasAnswerContent: AnswerCheck, runner: Runner): (result: StepResult)
    ensures result.stop <==> Classify(line) == Quit
    ensures Exiting in result.events <==> result.stop
    ensures !Classify(line).SetTopic? && !Classify(line).SetProblem? ==> result.state == state
    ensures result.state.topic == state.topic || Classify(line).SetTopic?
    ensures result.events == [] <==> Classify(line) == Blank
  {
    match Classify(line)
    case Blank => StepResult(state, [], false)
    case Quit => StepResult(state, [Exiting], true)
    case Help => StepResult(state, [ShowHelp], false)
    case SetTopic(topic) => StepResult(state.(topic := topic), [TopicSet(topic)], false)
    case SetProblem(problem) => StepResult(state.(problem := Some(problem)), [ProblemSet(problem)], false)
    case Submission(work) =>
      if !HasProblem(state) then StepResult(state, [NeedProblem], false)
      else
        match runner(StudentRequest(state.problem.value, work, state.topic, detectMode, hasAnswerContent))
        case Reply(response) => StepResult(state, [TutorResponse(response)], false)
        case Raised(message) => StepResult(state, [ErrorLogged(message)], false)
  }

  /** The loop over the lines read, up to and including the first quit. */
  function Run(state: SessionState, lines: seq<string>,
               detectMode: ModeDetector, hasAnswerContent: AnswerCheck, runner: Runner): (result: (SessionState, seq<Event>))
    ensures forall i :: 0 <= i < |result.1| - 1 ==> result.1[i] != Exiting
    decreases |lines|
  {
    if |lines| == 0 then (state, [])
    else
      var step := Step(state, lines[0], detectMode, hasAnswerContent, runner);
      if step.stop then (step.state, step.events)
      else
        var rest := Run(step.state, lines[1..], detectMode, hasAnswerContent, runner);
        (rest.0, step.events + rest.1)
  }

  /** `interactive_loop()`, on the lines the student types: starts on topic
      "general" with no problem and reads until a quit word. */
  method InteractiveLoop(lines: seq<string>, detectMode: ModeDetector, hasAnswerContent: AnswerCheck, runner: Runner)
    returns (state: SessionState, events: seq<Event>)
    ensures (state, events) == Run(InitialState, lines, detectMode, hasAnswerContent, runner)
  {
    ghost var total := Run(InitialState, lines, detectMode, hasAnswerContent, runner);
    state := InitialState;
    events := [];
    var i := 0;
    assert lines[0..] == lines;
    while i < |lines|
      invariant 0 <= i <= |lines|
      invariant total.0 == Run(state, lines[i..], detectMode, hasAnswerContent, runner).0
      invariant total.1 == events + Run(state, lines[i..], detectMode, hasAnswerContent, runner).1
    {
      var step := Step(state, lines[i], detectMode, hasAnswerContent, runner);
      RunAt(total, state, events, lines, i, detectMode, hasAnswerContent, runner);
      state := step.state;
      events := events + step.events;
      if step.stop {
        return;
      }
      i := i + 1;
    }
    assert lines[i..] == [];
    assert events + [] == events;
  }

  /** One round of the loop: when the run so far and the run from line `i`
      make up the whole run, the step on line `i` either ends it or leaves the
      same split one line further on. */
  lemma RunAt(total: (SessionState, seq<Event>), state: SessionState, events: seq<Event>, lines: seq<string>, i: nat,
              detectMode: ModeDetector, hasAnswerContent: AnswerCheck, runner: Runner)
    requires i < |lines|
    requires total.0 == Run(state, lines[i..], detectMode, hasAnswerContent, runner).0
    requires total.1 == events + Run(state, lines[i..], detectMode, hasAnswerContent, runner).1
    ensures var step := Step(state, lines[i], detectMode, hasAnswerContent, runner);
      var rest := Run(step.state, lines[i + 1..], detectMode, hasAnswerContent, runner);
      if step.stop then total == (step.state, events + step.events)
      else total.0 == rest.0 && total.1 == (events + step.events) + rest.1
  {
    assert lines[i..][0] == lines[i] && lines[i..][1..] == lines[i + 1..];
    var step := Step(state, lines[i], detectMode, hasAnswerContent, runner);
    var rest := Run(step.state, lines[i + 1..], detectMode, hasAnswerContent, runner);
    if !step.stop {
      assert events + (step.events + rest.1) == (events + step.events) + rest.1;
    }
  }

  /** Blank lines and "help" change neither the topic nor the problem. */
  lemma BlankAndHelpKeepState(state: SessionState, line: string,
                              detectMode: ModeDetector, hasAnswerContent: AnswerCheck, runner: Runner)
    requires Strip(line) == "" || Lower(Strip(line)) == "help"
    ensures Step(state, line, detectMode, hasAnswerContent, runner).state == state
    ensures !Step(state, line, detectMode, hasAnswerContent, runner).stop
  {
    if Strip(line) != "" {
      assert Lower(Strip(line)) !in QuitWords by {
        assert |Lower(Strip(line))| == 4;
      }
    }
  }

  /** "quit", "exit" and "q", in any case and with blanks around them, end
      the loop; nothing after them is read. */
  lemma QuitEndsLoop(state: SessionState, line: string, rest: seq<string>,
                     detectMode: ModeDetector, hasAnswerContent: AnswerCheck, runner: Runner)
    requires Lower(Strip(line)) in QuitWords
    ensures Run(state, [line] + rest, detectMode, hasAnswerContent, runner) == (state, [Exiting])
  {
    assert Strip(line) != "" by {
      assert |Lower(Strip(line))| > 0;
    }
    assert ([line] + rest)[0] == line;
  }

  /** A line starting with "topic" sets the topic and never the problem, even
      when "problem" follows; the trimmed rest of the line is the topic. */
  lemma TopicBeforeProblem(state: SessionState, line: string,
                           detectMode: ModeDetector, hasAnswerContent: AnswerCheck, runner: Runner)
    requires StartsWith(Lower(Strip(line)), "topic")
    ensures |Strip(line)| >= 5
    ensures Step(state, line, detectMode, hasAnswerContent, runner).state
         == SessionState(Strip(Strip(line)[5..]), state.problem)
  {
    var lowered := Lower(Strip(line));
    assert lowered !in QuitWords && lowered != "help" by {
      assert lowered[..5] == "topic";
      assert lowered[0] == 't';
    }
  }

  /** A line starting with "problem" (in any case) sets the problem to the
      rest of the line, trimmed, keeps the topic and does not end the loop. */
  lemma ProblemCommandSets(state: SessionState, line: string,
                           detectMode: ModeDetector, hasAnswerContent: AnswerCheck, runner: Runner)
    requires StartsWith(Lower(Strip(line)), "problem")
    ensures |Strip(line)| >= 7
    ensures var step := Step(state, line, detectMode, hasAnswerContent, runner);
      step.state == SessionState(state.topic, Some(Strip(Strip(line)[7..])))
      && step.events == [ProblemSet(Strip(Strip(line)[7..]))] && !step.stop
  {
    var lowered := Lower(Strip(line));
    assert lowered[0] == 'p';
    assert !StartsWith(lowered, "topic");
  }

  /** After "problem <text>" with some text, the next submission reaches the
      runner with that text as the problem and the topic unchanged. */
  lemma ProblemThenWork(state: SessionState, line: string, work: string,
                        detectMode: ModeDetector, hasAnswerContent: AnswerCheck, runner: Runner)
    requires StartsWith(Lower(Strip(line)), "problem")
    requires |Strip(line)| >= 7 && Strip(Strip(line)[7..]) != ""
    requires Classify(work).Submission?
    ensures var after := Step(state, line, detectMode, hasAnswerContent, runner).state;
      var reply := runner(StudentRequest(Strip(Strip(line)[7..]), Strip(work), state.topic, detectMode, hasAnswerContent));
      Step(after, work, detectMode, hasAnswerContent, runner).events
        == [if reply.Reply? then TutorResponse(reply.text) else ErrorLogged(reply.message)]
  {
    ProblemCommandSets(state, line, detectMode, hasAnswerContent, runner);
  }

  /** A bare "problem" leaves an empty problem, which counts as none: the
      next submission is refused and nothing reaches the runner. */
  lemma BareProblemRefusesWork(state: SessionState, work: string,
                               detectMode: ModeDetector, hasAnswerContent: AnswerCheck, runner: Runner)
    requires Classify(work).Submission?
    ensures var after := Step(state, "problem", detectMode, hasAnswerContent, runner);
      after.state.problem == Some("")
      && Step(after.state, work, detectMode, hasAnswerContent, runner).events == [NeedProblem]
  {
    NoSpaceStripped("problem");
    assert Lower("problem") == "problem";
    assert "problem"[7..] == "";
  }

  /** Work reaches the runner exactly when a non-empty problem is set, and
      then with the current problem and topic. */
  lemma SubmissionForwarded(state: SessionState, line: string,
                            detectMode: ModeDetector, hasAnswerContent: AnswerCheck, runner: Runner)
    requires Classify(line).Submission?
    ensures var step := Step(state, line, detectMode, hasAnswerContent, runner);
      step.state == state && !step.stop
      && (step.events == [NeedProblem] <==> !HasProblem(state))
      && (HasProblem(state) ==>
            var reply := runner(StudentRequest(state.problem.value, Strip(line), state.topic, detectMode, hasAnswerContent));
            step.events == [if reply.Reply? then TutorResponse(reply.text) else ErrorLogged(reply.message)])
  {
  }

  /** Nothing after the first quit is ever read: the loop over all lines is
      the loop over the lines up to that quit. */
  lemma {:induction false} RunStopsAtQuit(state: SessionState, lines: seq<string>, k: nat,
                                          detectMode: ModeDetector, hasAnswerContent: AnswerCheck, runner: Runner)
    requires k < |lines| && Classify(lines[k]) == Quit
    ensures Run(state, lines, detectMode, hasAnswerContent, runner)
         == Run(state, lines[..k + 1], detectMode, hasAnswerContent, runner)
    decreases k
  {
    var step := Step(state, lines[0], detectMode, hasAnswerContent, runner);
    assert lines[..k + 1][0] == lines[0];
    if k > 0 && !step.stop {
      assert lines[..k + 1][1..] == lines[1..][..k];
      RunStopsAtQuit(step.state, lines[1..], k - 1, detectMode, hasAnswerContent, runner);
    }
  }
}
