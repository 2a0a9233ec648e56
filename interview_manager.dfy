/** The interview session controller: the form inputs, the progress indicators, the
    question list and the recorded answers, the completion and analysis flags, the
    ambient microphone phase, and the session token that lets a newer session (or the
    end of one) silence the late results of an older start attempt.

    Each React effect and each stretch of an async handler between two `await`s is one
    method here.  What an awaited call settles with is a parameter of the method that
    continues after it; a start attempt carries its token and the inputs it captured.
 */
module InterviewManager {
  import opened Outcomes
  import opened Text
  import opened Prompts
  import opened InterviewService
  import opened SpeechRecognition

  datatype Phase = RequestPermission | PasteDescription | StartingListener | Listening | Paused

  /** `LoaderConfig`: one progress indicator. */
  datatype Loader = Loader(id: string, messages: seq<string>)

  const AllowMicrophone := "Allow microphone access to begin."
  const RecognitionUnsupported := "Speech recognition is not supported in this browser."
  const AddYourName := "Add your name to personalise your interview."
  const PasteTheDescription := "Paste the job description to start voice capture."
  const CapturePaused := "Voice capture paused. Resume when you are ready."
  const NowListening := "Listening \U{2014} your answers will be transcribed for Gemini Nano."
  const PreparingMicrophone := "Preparing microphone..."
  const MicrophoneFallback := "Unable to access your microphone right now."
  const SynthesisUnsupported := "Speech synthesis is not supported in this browser."
  const AudioFailed := "Unable to play the question audio."
  const InterviewEnded := "Interview ended. Start again when you're ready."
  const StartAnswerFallback := "Unable to start recording your answer."
  const RecordingAnswer := "Recording your answer..."
  const RestartFallback := "Unable to restart recording."
  const RecordingRestarted := "Recording restarted. Speak when ready."
  const AnalysisFallback := "Unable to analyse your answers right now."
  const InterviewCompleteMessage := "Interview complete. Review your answers below."
  const EnterYourName := "Please enter your name before starting the interview."
  const UnrecognisedDescription := "We couldn't recognise that job description. Try another one."
  const KeywordsFailed := "Unable to generate keywords right now."
  const NoKeywords := "No keywords found. Please refine the job description."
  const QuestionsFailed := "Unable to generate interview questions right now."
  const NoQuestions := "No questions were returned. Try again later."

  const AnalysisLoader := "answer-analysis"
  const AnalysisMessages := ["Reviewing your answers", "Highlighting improvement opportunities"]
  const KeywordLoader := "keyword-extraction"
  const KeywordMessages := ["Analysing keywords", "Extracting relevant keywords from the job description"]
  const QuestionLoader := "question-generation"
  const QuestionMessages := ["Generating questions", "Crafting tailored interview prompts"]

  function QuestionOf(index: int, total: int): string {
    "Question " + IntToString(index + 1) + " of " + IntToString(total)
  }

  function PreparingFirstQuestion(name: string): string {
    "Preparing your first interview question, " + name + "..."
  }

  // ---------------------------------------------------------------- progress indicators

  /** The loaders whose id is not `id`, in their order. */
  function WithoutLoader(loaders: seq<Loader>, id: string): (r: seq<Loader>)
    ensures |r| <= |loaders|
    ensures forall l :: l in r <==> l in loaders && l.id != id
    decreases |loaders|
  {
    if loaders == [] then []
    else (if loaders[0].id == id then [] else [loaders[0]]) + WithoutLoader(loaders[1..], id)
  }

  /** `startLoader`: any loader with the same id is replaced by the new one, which goes
      last; the other loaders stay as they were. */
  function WithLoader(loaders: seq<Loader>, id: string, messages: seq<string>): (r: seq<Loader>)
    ensures |r| >= 1 && r[|r| - 1] == Loader(id, messages)
    ensures r[..|r| - 1] == WithoutLoader(loaders, id)
    ensures forall i :: 0 <= i < |r| - 1 ==> r[i].id != id
  {
    var kept := WithoutLoader(loaders, id);
    assert forall i :: 0 <= i < |kept| ==> kept[i] in kept;
    kept + [Loader(id, messages)]
  }

  /** No two loaders share an id. */
  predicate DistinctIds(loaders: seq<Loader>) {
    forall i, j :: 0 <= i < j < |loaders| ==> loaders[i].id != loaders[j].id
  }

  /** Removal keeps the relative order: removing from two lists one after the other is
      removing from each. */
  lemma {:induction false} WithoutLoaderConcat(a: seq<Loader>, b: seq<Loader>, id: string)
    ensures WithoutLoader(a + b, id) == WithoutLoader(a, id) + WithoutLoader(b, id)
    decreases |a|
  {
    if a == [] {
      assert a + b == b;
    } else {
      assert (a + b)[0] == a[0];
      assert (a + b)[1..] == a[1..] + b;
      WithoutLoaderConcat(a[1..], b, id);
    }
  }

  /** Removing an id no loader has changes nothing. */
  lemma {:induction false} WithoutAbsentLoader(loaders: seq<Loader>, id: string)
    requires forall i :: 0 <= i < |loaders| ==> loaders[i].id != id
    ensures WithoutLoader(loaders, id) == loaders
    decreases |loaders|
  {
    if loaders != [] {
      WithoutAbsentLoader(loaders[1..], id);
    }
  }

  /** Stopping a loader twice is stopping it once. */
  lemma WithoutLoaderIdempotent(loaders: seq<Loader>, id: string)
    ensures WithoutLoader(WithoutLoader(loaders, id), id) == WithoutLoader(loaders, id)
  {
    var r := WithoutLoader(loaders, id);
    assert forall i :: 0 <= i < |r| ==> r[i] in r;
    WithoutAbsentLoader(r, id);
  }

  /** Removing loaders keeps the ids distinct. */
  lemma {:induction false} WithoutLoaderDistinct(loaders: seq<Loader>, id: string)
    requires DistinctIds(loaders)
    ensures DistinctIds(WithoutLoader(loaders, id))
    decreases |loaders|
  {
    if loaders != [] {
      var rest := loaders[1..];
      WithoutLoaderDistinct(rest, id);
      var tail := WithoutLoader(rest, id);
      forall l | l in tail ensures l.id != loaders[0].id {
        var k :| 0 <= k < |rest| && rest[k] == l;
        assert loaders[k + 1] == l;
      }
      var r := WithoutLoader(loaders, id);
      if loaders[0].id != id {
        assert r == [loaders[0]] + tail;
        forall i, j | 0 <= i < j < |r| ensures r[i].id != r[j].id {
          if i == 0 {
            assert r[j] == tail[j - 1] && r[j] in tail;
          } else {
            assert r[i] == tail[i - 1] && r[j] == tail[j - 1];
          }
        }
      } else {
        assert r == tail;
      }
    }
  }

  /** Starting a loader keeps the ids distinct. */
  lemma WithLoaderDistinct(loaders: seq<Loader>, id: string, messages: seq<string>)
    requires DistinctIds(loaders)
    ensures DistinctIds(WithLoader(loaders, id, messages))
  {
    WithoutLoaderDistinct(loaders, id);
    var r := WithLoader(loaders, id, messages);
    var kept := WithoutLoader(loaders, id);
    forall i, j | 0 <= i < j < |r| ensures r[i].id != r[j].id {
      if j < |r| - 1 {
        assert r[i] == kept[i] && r[j] == kept[j];
      }
    }
  }

  // ---------------------------------------------------------------- derived values

  /** `combinedTranscript`: the non-empty buffers joined by a space, trimmed. */
  function CombinedTranscript(transcript: string, interim: string): (r: string)
    ensures IsTrimmed(r)
  {
    if transcript != "" && interim != "" then Trim(transcript + " " + interim)
    else if transcript != "" then Trim(transcript)
    else Trim(interim)
  }

  /** With trimmed buffers, as the speech hook keeps them, nothing is cut: the
      combined transcript is the settled text, a space and the interim text. */
  lemma CombinedOfTrimmed(transcript: string, interim: string)
    requires IsTrimmed(transcript) && IsTrimmed(interim)
    ensures CombinedTranscript(transcript, interim)
            == if transcript == "" then interim
               else if interim == "" then transcript
               else transcript + " " + interim
  {
    if transcript != "" && interim != "" {
      TrimmedJoin(transcript, interim);
    } else if transcript != "" {
      TrimOfTrimmed(transcript);
    } else {
      TrimOfTrimmed(interim);
    }
  }

  /** `currentQuestion`: the question at the index, or none outside the list. */
  function CurrentQuestion(questions: seq<string>, index: int): (q: Option<string>)
    ensures q.None? <==> index < 0 || index >= |questions|
    ensures q.Some? ==> q.value == questions[index]
  {
    if index < 0 || index >= |questions| then None else Some(questions[index])
  }

  /** The ambient microphone state: the phase shown, the manual pause, and
      `startInFlightRef`. */
  datatype Capture = Capture(phase: Phase, manualPause: bool, startInFlight: bool)

  /** The interview itself: whether it is running, the generated questions, the
      position, the recorded answers, whether an answer is being recorded, and whether
      the interview is over. */
  datatype Interview = Interview(isInterviewActive: bool, questions: seq<string>, currentQuestionIndex: int,
                                 interviewQnA: seq<InterviewAnswer>, isAnswering: bool, interviewComplete: bool)

  /** Reading a question aloud. */
  datatype Narration = Narration(isNarrating: bool, narrationError: Option<string>)

  /** The analysis of the recorded answers. */
  datatype Analysis = Analysis(analysisResults: seq<AnswerFeedback>, analysisError: Option<string>,
                               isAnalyzingAnswers: bool)

  /** Everything the controller shows about the session, apart from the form inputs,
      grouped by concern; `sessionToken` is `sessionTokenRef`. */
  datatype Session = Session(
    capture: Capture,
    statusMessage: Option<string>,
    activeLoaders: seq<Loader>,
    interview: Interview,
    narration: Narration,
    analysis: Analysis,
    sessionToken: nat)

  const NoInterview := Interview(false, [], 0, [], false, false)
  const Silent := Narration(false, None)
  const NoAnalysis := Analysis([], None, false)

  /** The question the session is at. */
  function Question(s: Session): Option<string> {
    CurrentQuestion(s.interview.questions, s.interview.currentQuestionIndex)
  }

  /** `!!currentQuestion`: a question exists at the index and it is not empty. */
  predicate HasQuestion(s: Session) {
    Truthy(Question(s))
  }

  /** The recorded answers are one per question asked so far, each under the question
      it answers, and the index never passes the end of the list; no two progress
      indicators share an id. */
  predicate Consistent(s: Session) {
    AnswersMatch(s.interview.questions, s.interview.currentQuestionIndex, s.interview.interviewQnA)
    && DistinctIds(s.activeLoaders)
  }

  /** One recorded answer per question asked so far, each under its question. */
  predicate AnswersMatch(questions: seq<string>, index: int, answers: seq<InterviewAnswer>) {
    && 0 <= index <= |questions|
    && |answers| == index
    && (forall i :: 0 <= i < |answers| ==> answers[i].question == questions[i])
  }

  /** The two sessions hold the same interview: the same questions, position, answers
      and indicators. */
  predicate SameInterview(s: Session, t: Session) {
    && s.interview.questions == t.interview.questions
    && s.interview.currentQuestionIndex == t.interview.currentQuestionIndex
    && s.interview.interviewQnA == t.interview.interviewQnA
    && s.activeLoaders == t.activeLoaders
  }

  /** Some indicator with this id is showing. */
  predicate Showing(loaders: seq<Loader>, id: string) {
    exists l :: l in loaders && l.id == id
  }

  /** Stopping an indicator takes down that id and leaves the others showing. */
  lemma ShowingAfterStop(loaders: seq<Loader>, id: string, other: string)
    ensures Showing(WithoutLoader(loaders, id), other) <==> other != id && Showing(loaders, other)
  {
    if other != id && Showing(loaders, other) {
      var l :| l in loaders && l.id == other;
      assert l in WithoutLoader(loaders, id);
    }
  }

  /** Starting an indicator shows that id and leaves the others showing. */
  lemma ShowingAfterStart(loaders: seq<Loader>, id: string, messages: seq<string>, other: string)
    ensures Showing(WithLoader(loaders, id, messages), other) <==> other == id || Showing(loaders, other)
  {
    var r := WithLoader(loaders, id, messages);
    assert r == WithoutLoader(loaders, id) + [Loader(id, messages)];
    ShowingAfterStop(loaders, id, other);
    if other == id {
      assert Loader(id, messages) in r;
    }
    if Showing(loaders, other) && other != id {
      var l :| l in WithoutLoader(loaders, id) && l.id == other;
      assert l in r;
    }
  }

  // ---------------------------------------------------------------- ending a session

  /** `endInterview` on the session: every per-session value back to its default, the
      ended message shown, and the token moved on so that pending attempts go stale. */
  function Ended(s: Session): (e: Session)
    ensures Consistent(e) && !HasQuestion(e) && e.sessionToken == s.sessionToken + 1
  {
    s.(capture := s.capture.(manualPause := false, startInFlight := false),
       statusMessage := Some(InterviewEnded), activeLoaders := [], interview := NoInterview,
       narration := Silent, analysis := NoAnalysis, sessionToken := s.sessionToken + 1)
  }

  /** Ending twice leaves the session as ending once does, except that the token has
      moved on twice. */
  lemma EndedTwice(s: Session)
    ensures Ended(Ended(s)) == Ended(s).(sessionToken := s.sessionToken + 2)
  {
  }

  /** An ended session is the same whatever session was ended, up to its phase and its
      token: nothing of the old session survives. */
  lemma EndedForgets(s: Session, t: Session)
    requires s.capture.phase == t.capture.phase && s.sessionToken == t.sessionToken
    ensures Ended(s) == Ended(t)
  {
  }

  /** An answer start that settles after the interview was ended (the microphone
      prompt was still open) marks the ended session as answering and recording. */
  lemma AnswerStartedAfterEnd(s: Session)
    ensures var r := AnswerStarted(Ended(s), Pass);
      && r.interview.isAnswering && !r.interview.isInterviewActive
      && r.statusMessage == Some(RecordingAnswer)
  {
  }

  // ---------------------------------------------------------------- answering

  /** `handleSubmitAnswer` on the session, given the answer text. */
  function Submitted(s: Session, answer: string): Session {
    if !HasQuestion(s) then s
    else s.(interview := s.interview.(
              isAnswering := false,
              interviewQnA := s.interview.interviewQnA + [InterviewAnswer(Question(s).value, answer)],
              currentQuestionIndex := s.interview.currentQuestionIndex + 1))
  }

  /** Submitting records exactly one answer, under the question being answered, and
      moves to the next question, keeping the answers in step with the questions;
      without a question to answer nothing changes. */
  lemma SubmitRecordsOneAnswer(s: Session, answer: string)
    requires Consistent(s)
    ensures Consistent(Submitted(s, answer))
    ensures HasQuestion(s) ==>
      && Submitted(s, answer).interview.interviewQnA
         == s.interview.interviewQnA + [InterviewAnswer(s.interview.questions[s.interview.currentQuestionIndex], answer)]
      && Submitted(s, answer).interview.currentQuestionIndex == s.interview.currentQuestionIndex + 1
    ensures !HasQuestion(s) ==> Submitted(s, answer) == s
  {
    if HasQuestion(s) {
      var t := Submitted(s, answer).interview;
      forall i | 0 <= i < |t.interviewQnA| ensures t.interviewQnA[i].question == t.questions[i] {
        if i < |s.interview.interviewQnA| {
          assert t.interviewQnA[i] == s.interview.interviewQnA[i];
        }
      }
    }
  }

  /** `handleStartAnswer` on the session once listening has started or failed. */
  function AnswerStarted(s: Session, started: Outcome): (r: Session)
    ensures SameInterview(s, r)
  {
    match started
    case Pass => s.(interview := s.interview.(isAnswering := true), statusMessage := Some(RecordingAnswer))
    case Fail(thrown) => s.(statusMessage := Some(MessageOr(thrown, StartAnswerFallback)))
  }

  /** `handleRestartAnswer` on the session once listening is live again or failed. */
  function AnswerRestarted(s: Session, restarted: Outcome): (r: Session)
    ensures SameInterview(s, r)
  {
    match restarted
    case Pass => s.(statusMessage := Some(RecordingRestarted))
    case Fail(thrown) => s.(statusMessage := Some(MessageOr(thrown, RestartFallback)))
  }

  // ---------------------------------------------------------------- presenting questions

  /** `speakQuestion`, reduced to its flags. */
  function Spoken(s: Session, text: string, synthesisPresent: bool): (r: Session)
    ensures SameInterview(s, r)
  {
    if text == "" then s
    else if !synthesisPresent then s.(narration := s.narration.(narrationError := Some(SynthesisUnsupported)))
    else s.(narration := Narration(true, None))
  }

  /** The presentation effect on the session: inside an interview, answering stops;
      with no question left the interview is complete, otherwise the question is
      announced and read out. */
  function Presented(s: Session, synthesisPresent: bool): (r: Session)
    ensures SameInterview(s, r)
  {
    if !s.interview.isInterviewActive then s
    else if !HasQuestion(s) then
      s.(interview := s.interview.(isAnswering := false, interviewComplete := true),
         statusMessage := Some(InterviewCompleteMessage))
    else
      Spoken(s.(interview := s.interview.(isAnswering := false, interviewComplete := false),
                statusMessage := Some(QuestionOf(s.interview.currentQuestionIndex, |s.interview.questions|))),
             Question(s).value, synthesisPresent)
  }

  /** When no generated question is empty, the interview is declared complete exactly
      when every question has its answer. */
  lemma CompleteWhenAllAnswered(s: Session, synthesisPresent: bool)
    requires Consistent(s) && s.interview.isInterviewActive
    requires forall i :: 0 <= i < |s.interview.questions| ==> s.interview.questions[i] != ""
    ensures Presented(s, synthesisPresent).interview.interviewComplete
            <==> |s.interview.interviewQnA| == |s.interview.questions|
  {
  }

  /** An empty generated question ends the interview early: it counts as no question. */
  lemma EmptyQuestionCompletes(s: Session, synthesisPresent: bool)
    requires Consistent(s) && s.interview.isInterviewActive
    requires s.interview.currentQuestionIndex < |s.interview.questions|
    requires s.interview.questions[s.interview.currentQuestionIndex] == ""
    ensures Presented(s, synthesisPresent).interview.interviewComplete
    ensures |Presented(s, synthesisPresent).interview.interviewQnA| < |s.interview.questions|
  {
  }

  // ---------------------------------------------------------------- the ambient phase

  /** The ambient effect stops and clears the capture: outside an interview with a
      prerequisite missing. */
  predicate AmbientClears(s: Session, hasPermission: bool, hasName: bool, hasDescription: bool) {
    !s.interview.isInterviewActive && (!hasPermission || !hasName || !hasDescription)
  }

  /** The ambient effect starts listening: outside an interview, every prerequisite
      met, not paused, not listening and no start already in flight. */
  predicate AmbientLaunches(s: Session, hasPermission: bool, hasName: bool, hasDescription: bool, isListening: bool) {
    && !s.interview.isInterviewActive && hasPermission && hasName && hasDescription
    && !s.capture.manualPause && !isListening && !s.capture.startInFlight
  }

  /** The ambient-listening effect on the session: the phase is chosen in priority
      order, missing permission first, then a missing name or description, then a
      manual pause, then live listening; otherwise a start is (or already was) under
      way. */
  function Ambient(s: Session, hasPermission: bool, hasName: bool, hasDescription: bool, isListening: bool)
    : (r: Session)
    ensures SameInterview(s, r)
    ensures s.interview.isInterviewActive ==> r == s
    ensures !s.interview.isInterviewActive ==>
      && (r.capture.phase == RequestPermission <==> !hasPermission)
      && (r.capture.phase == PasteDescription <==> hasPermission && (!hasName || !hasDescription))
      && (r.capture.phase == Paused <==> hasPermission && hasName && hasDescription && s.capture.manualPause)
      && (r.capture.phase == Listening <==>
            hasPermission && hasName && hasDescription && !s.capture.manualPause && isListening)
      && (r.capture.phase == StartingListener <==>
            hasPermission && hasName && hasDescription && !s.capture.manualPause && !isListening)
    ensures AmbientClears(s, hasPermission, hasName, hasDescription) ==> !r.capture.manualPause
    ensures AmbientLaunches(s, hasPermission, hasName, hasDescription, isListening) ==> r.capture.startInFlight
    ensures r.interview == s.interview
  {
    var c := s.capture;
    if s.interview.isInterviewActive then s
    else if !hasPermission then
      s.(capture := c.(manualPause := false, phase := RequestPermission), statusMessage := Some(AllowMicrophone))
    else if !hasName then
      s.(capture := c.(manualPause := false, phase := PasteDescription), statusMessage := Some(AddYourName))
    else if !hasDescription then
      s.(capture := c.(manualPause := false, phase := PasteDescription), statusMessage := Some(PasteTheDescription))
    else if c.manualPause then
      s.(capture := c.(phase := Paused), statusMessage := Some(CapturePaused))
    else if isListening then
      s.(capture := c.(phase := Listening), statusMessage := Some(NowListening))
    else
      s.(capture := c.(phase := StartingListener, startInFlight := true), statusMessage := Some(PreparingMicrophone))
  }

  /** The rest of the ambient start once listening has started or failed. */
  function AmbientSettled(s: Session, outcome: Outcome): (r: Session)
    ensures SameInterview(s, r)
  {
    match outcome
    case Pass =>
      s.(capture := s.capture.(phase := Listening, startInFlight := false), statusMessage := Some(NowListening))
    case Fail(thrown) =>
      s.(capture := Capture(Paused, true, false), statusMessage := Some(MessageOr(thrown, MicrophoneFallback)))
  }

  /** While a start is in flight, running the effect again never starts a second one. */
  lemma AmbientNoSecondStart(s: Session, hasPermission: bool, hasName: bool, hasDescription: bool,
                             isListening: bool, listeningLater: bool)
    requires AmbientLaunches(s, hasPermission, hasName, hasDescription, isListening)
    ensures !AmbientLaunches(Ambient(s, hasPermission, hasName, hasDescription, isListening),
                             hasPermission, hasName, hasDescription, listeningLater)
  {
  }

  /** A failed start pauses capture: the effect then reports the pause and does not try
      again until the prerequisites change. */
  lemma FailedStartStaysPaused(s: Session, thrown: Thrown, hasPermission: bool, hasName: bool,
                               hasDescription: bool, isListening: bool)
    requires !s.interview.isInterviewActive && hasPermission && hasName && hasDescription
    ensures var settled := AmbientSettled(s, Fail(thrown));
      && Ambient(settled, hasPermission, hasName, hasDescription, isListening).capture.phase == Paused
      && !AmbientLaunches(settled, hasPermission, hasName, hasDescription, isListening)
  {
  }

  // ---------------------------------------------------------------- answer analysis

  /** The auto-analysis guard: a completed interview with answers, no results, no
      analysis in flight and no error. */
  predicate AnalysisDue(s: Session) {
    && s.interview.interviewComplete && |s.interview.interviewQnA| > 0
    && |s.analysis.analysisResults| == 0 && !s.analysis.isAnalyzingAnswers && !Truthy(s.analysis.analysisError)
  }

  /** The first half of `runAnswerAnalysis` on a session with answers: the analysis
      indicator starts, the analysis is in flight and the last error is cleared. */
  function AnalysisBegun(s: Session): Session {
    s.(activeLoaders := WithLoader(s.activeLoaders, AnalysisLoader, AnalysisMessages),
       analysis := s.analysis.(isAnalyzingAnswers := true, analysisError := None))
  }

  /** The second half of `runAnswerAnalysis` on the session: the feedback, or no
      feedback and the failure's message; either way no longer in flight and without
      its indicator. */
  function AnalysisFinished(s: Session, outcome: Result<seq<AnswerFeedback>>): (r: Session)
    ensures !r.analysis.isAnalyzingAnswers && !Showing(r.activeLoaders, AnalysisLoader)
    ensures outcome.Ok? ==> r.analysis.analysisResults == outcome.value && r.analysis.analysisError == s.analysis.analysisError
    ensures outcome.Err? ==>
      r.analysis.analysisResults == [] && r.analysis.analysisError == Some(MessageOr(outcome.thrown, AnalysisFallback))
  {
    ShowingAfterStop(s.activeLoaders, AnalysisLoader, AnalysisLoader);
    var settled := match outcome
      case Ok(feedback) => s.analysis.(analysisResults := feedback, isAnalyzingAnswers := false)
      case Err(thrown) => Analysis([], Some(MessageOr(thrown, AnalysisFallback)), false);
    s.(analysis := settled, activeLoaders := WithoutLoader(s.activeLoaders, AnalysisLoader))
  }

  /** Once started, the analysis is not started again while it runs. */
  lemma AnalysisNotRestartedWhileRunning(s: Session)
    requires AnalysisDue(s)
    ensures !AnalysisDue(AnalysisBegun(s))
  {
  }

  /** Once the analysis of the recorded answers has settled it is not run again: it
      produced one feedback per answer, or it left an error behind, unless that
      error's message is empty. */
  lemma AnalysisRunsOnce(s: Session, writerPresent: bool, create: Outcome,
                         reply: (nat, string) -> Result<string>, parse: string -> Result<Json>)
    requires AnalysisDue(s)
    requires var out := AnswersAnalysis(s.interview.interviewQnA, writerPresent, create, reply, parse);
      out.Err? ==> MessageOr(out.thrown, AnalysisFallback) != ""
    ensures !AnalysisDue(AnalysisFinished(AnalysisBegun(s),
                                          AnswersAnalysis(s.interview.interviewQnA, writerPresent, create, reply, parse)))
  {
    var entries := s.interview.interviewQnA;
    var out := AnswersAnalysis(entries, writerPresent, create, reply, parse);
    if out.Ok? {
      var texts := EntryFeedbacks(entries, reply, parse);
      FeedbackKeepsOrder(entries, texts, |entries|);
      assert |out.value| == |entries|;
    }
  }

  // ---------------------------------------------------------------- starting an interview

  /** What `startInterview` captured when it was called. */
  datatype Request = Request(name: string, jobDescription: string, questionCount: int, difficulty: Difficulty)

  /** A start attempt in flight: its token and its captured inputs. */
  datatype Attempt = Attempt(token: nat, request: Request)

  /** After an "available" probe: the previous session's questions, answers and
      analysis are cleared, the next token is taken and the keyword indicator starts. */
  function Opened(s: Session): Session {
    s.(sessionToken := s.sessionToken + 1,
       interview := s.interview.(interviewQnA := [], questions := [], currentQuestionIndex := 0,
                                 interviewComplete := false, isInterviewActive := false),
       analysis := NoAnalysis,
       activeLoaders := WithLoader(s.activeLoaders, KeywordLoader, KeywordMessages))
  }

  /** The attempt is the session's latest. */
  predicate Live(s: Session, attempt: Attempt) {
    attempt.token == s.sessionToken
  }

  /** After the relevance check: a live attempt with a relevant description goes on;
      in every other case the keyword indicator stops, and a live attempt reports why
      it stopped.  Nothing but the message and the indicators changes. */
  function AfterVerify(s: Session, attempt: Attempt, verification: Result<bool>): Session {
    var proceeds := Live(s, attempt) && verification == Ok(true);
    s.(statusMessage := if !Live(s, attempt) || proceeds then s.statusMessage
                        else if verification.Ok? then Some(UnrecognisedDescription) else Some(KeywordsFailed),
       activeLoaders := if proceeds then s.activeLoaders else WithoutLoader(s.activeLoaders, KeywordLoader))
  }

  /** The non-empty string array under `key` of a reply that parsed. */
  function Found(reply: Result<Json>, key: string): (r: Option<seq<string>>)
    ensures r.Some? <==> reply.Ok? && ArrayMember(reply.value, key).Some? && ArrayMember(reply.value, key).value != []
    ensures r.Some? ==> r == ArrayMember(reply.value, key)
  {
    if reply.Err? then None
    else match ArrayMember(reply.value, key)
      case Some(items) => if items != [] then Some(items) else None
      case None => None
  }

  /** After keyword extraction: the keyword indicator stops; a live attempt with
      keywords starts the question indicator, otherwise it reports why it stopped.
      Nothing but the message and the indicators changes. */
  function AfterKeywords(s: Session, attempt: Attempt, reply: Result<Json>): Session {
    var kept := WithoutLoader(s.activeLoaders, KeywordLoader);
    var proceeds := Live(s, attempt) && Found(reply, "keywords").Some?;
    s.(statusMessage := if !Live(s, attempt) || proceeds then s.statusMessage
                        else if reply.Err? then Some(KeywordsFailed) else Some(NoKeywords),
       activeLoaders := if proceeds then WithLoader(kept, QuestionLoader, QuestionMessages) else kept)
  }

  /** After question generation: the question indicator stops; a live attempt with
      questions starts the interview at its first question with no answers, otherwise
      it reports why it stopped. */
  function AfterQuestions(s: Session, attempt: Attempt, reply: Result<Json>): Session {
    var found := Found(reply, "questions");
    var starts := Live(s, attempt) && found.Some?;
    s.(interview := if starts then s.interview.(questions := found.value, currentQuestionIndex := 0,
                                                interviewQnA := [], isInterviewActive := true)
                    else s.interview,
       statusMessage := if !Live(s, attempt) then s.statusMessage
                        else if starts then Some(PreparingFirstQuestion(attempt.request.name))
                        else if reply.Err? then Some(QuestionsFailed) else Some(NoQuestions),
       activeLoaders := WithoutLoader(s.activeLoaders, QuestionLoader))
  }

  /** Where each stage leaves the indicators. */
  lemma VerifyIndicators(s: Session, attempt: Attempt, verification: Result<bool>)
    ensures AfterVerify(s, attempt, verification).activeLoaders
         == if Live(s, attempt) && verification == Ok(true) then s.activeLoaders
            else WithoutLoader(s.activeLoaders, KeywordLoader)
  {
  }

  lemma KeywordsIndicators(s: Session, attempt: Attempt, reply: Result<Json>)
    ensures var kept := WithoutLoader(s.activeLoaders, KeywordLoader);
      AfterKeywords(s, attempt, reply).activeLoaders
        == if Live(s, attempt) && Found(reply, "keywords").Some? then WithLoader(kept, QuestionLoader, QuestionMessages)
           else kept
  {
  }

  lemma QuestionsIndicators(s: Session, attempt: Attempt, reply: Result<Json>)
    ensures AfterQuestions(s, attempt, reply).activeLoaders == WithoutLoader(s.activeLoaders, QuestionLoader)
  {
  }

  /** A stale attempt changes nothing but its own indicator, whatever the awaited call
      settled with. */
  lemma StaleAttemptOnlyStopsItsIndicator(s: Session, attempt: Attempt, verification: Result<bool>, reply: Result<Json>)
    requires !Live(s, attempt)
    ensures AfterVerify(s, attempt, verification) == s.(activeLoaders := WithoutLoader(s.activeLoaders, KeywordLoader))
    ensures AfterKeywords(s, attempt, reply) == s.(activeLoaders := WithoutLoader(s.activeLoaders, KeywordLoader))
    ensures AfterQuestions(s, attempt, reply) == s.(activeLoaders := WithoutLoader(s.activeLoaders, QuestionLoader))
  {
  }

  /** Ending the interview silences every pending attempt: whatever its calls settle
      with, the ended session stays exactly as it is. */
  lemma EndedIgnoresPendingAttempt(s: Session, attempt: Attempt, verification: Result<bool>, reply: Result<Json>)
    requires attempt.token <= s.sessionToken
    ensures AfterVerify(Ended(s), attempt, verification) == Ended(s)
    ensures AfterKeywords(Ended(s), attempt, reply) == Ended(s)
    ensures AfterQuestions(Ended(s), attempt, reply) == Ended(s)
  {
  }

  /** The indicators share ids across attempts: when an older attempt's relevance check
      settles after a newer attempt has started, the older one's cleanup takes down the
      newer one's keyword indicator too. */
  lemma StaleCleanupStopsNewerIndicator(s: Session, older: Attempt, verification: Result<bool>)
    requires older.token <= s.sessionToken
    ensures var newer := Opened(s);
      && Showing(newer.activeLoaders, KeywordLoader)
      && !Showing(AfterVerify(newer, older, verification).activeLoaders, KeywordLoader)
  {
    var l := Opened(s).activeLoaders;
    ShowingAfterStart(s.activeLoaders, KeywordLoader, KeywordMessages, KeywordLoader);
    ShowingAfterStop(l, KeywordLoader, KeywordLoader);
  }

  /** The start pipeline from an "available" probe when nothing interrupts it: each
      stage runs only when the one before it succeeded. */
  function StartRun(s: Session, request: Request, verification: Result<bool>,
                    keywords: Result<Json>, questions: Result<Json>): Session
  {
    var s1 := Opened(s);
    var attempt := Attempt(s1.sessionToken, request);
    var s2 := AfterVerify(s1, attempt, verification);
    if verification != Ok(true) then s2
    else
      var s3 := AfterKeywords(s2, attempt, keywords);
      if Found(keywords, "keywords").None? then s3
      else AfterQuestions(s3, attempt, questions)
  }

  /** However the pipeline ends, neither of its indicators is left showing, unless an
      earlier attempt's question indicator was still up when it started. */
  lemma StartRunStopsIndicators(s: Session, request: Request, verification: Result<bool>,
                                keywords: Result<Json>, questions: Result<Json>)
    requires !Showing(s.activeLoaders, QuestionLoader)
    ensures var r := StartRun(s, request, verification, keywords, questions);
      !Showing(r.activeLoaders, KeywordLoader) && !Showing(r.activeLoaders, QuestionLoader)
  {
    var s1 := Opened(s);
    var attempt := Attempt(s1.sessionToken, request);
    var s2 := AfterVerify(s1, attempt, verification);
    var l0 := s.activeLoaders;
    var l1 := WithLoader(l0, KeywordLoader, KeywordMessages);
    var l2 := WithoutLoader(l1, KeywordLoader);
    var r := StartRun(s, request, verification, keywords, questions);
    VerifyIndicators(s1, attempt, verification);
    ShowingAfterStart(l0, KeywordLoader, KeywordMessages, QuestionLoader);
    ShowingAfterStop(l1, KeywordLoader, KeywordLoader);
    ShowingAfterStop(l1, KeywordLoader, QuestionLoader);
    if verification != Ok(true) {
      assert r == s2;
    } else {
      var s3 := AfterKeywords(s2, attempt, keywords);
      KeywordsIndicators(s2, attempt, keywords);
      if Found(keywords, "keywords").None? {
        assert r == s3;
      } else {
        assert r == AfterQuestions(s3, attempt, questions);
        var l3 := WithLoader(l2, QuestionLoader, QuestionMessages);
        QuestionsIndicators(s3, attempt, questions);
        ShowingAfterStart(l2, QuestionLoader, QuestionMessages, KeywordLoader);
        ShowingAfterStop(l3, QuestionLoader, KeywordLoader);
        ShowingAfterStop(l3, QuestionLoader, QuestionLoader);
      }
    }
  }

  /** A pipeline that stops early reports the stage that stopped it and leaves the
      interview inactive: an unrecognised description, a failed keyword step, no
      keywords, a failed question step, or no questions. */
  lemma StartRunReportsFailure(s: Session, request: Request, verification: Result<bool>,
                               keywords: Result<Json>, questions: Result<Json>)
    ensures var r := StartRun(s, request, verification, keywords, questions);
      && (verification != Ok(true) ==>
            r.statusMessage == Some(if verification.Ok? then UnrecognisedDescription else KeywordsFailed))
      && (verification == Ok(true) && Found(keywords, "keywords").None? ==>
            r.statusMessage == Some(if keywords.Ok? then NoKeywords else KeywordsFailed))
      && (verification == Ok(true) && Found(keywords, "keywords").Some? && Found(questions, "questions").None? ==>
            r.statusMessage == Some(if questions.Ok? then NoQuestions else QuestionsFailed))
      && (r.interview.isInterviewActive <==>
            verification == Ok(true) && Found(keywords, "keywords").Some? && Found(questions, "questions").Some?)
  {
    var s1 := Opened(s);
    var attempt := Attempt(s1.sessionToken, request);
    var s2 := AfterVerify(s1, attempt, verification);
    var r := StartRun(s, request, verification, keywords, questions);
    if verification != Ok(true) {
      assert r == s2;
    } else {
      var s3 := AfterKeywords(s2, attempt, keywords);
      if Found(keywords, "keywords").None? {
        assert r == s3;
      } else {
        assert r == AfterQuestions(s3, attempt, questions);
      }
    }
  }

  /** A pipeline whose three stages all succeed starts the interview on the generated
      questions, at the first one, with no answers, greeting the candidate by name. */
  lemma StartRunStartsInterview(s: Session, request: Request, verification: Result<bool>,
                                keywords: Result<Json>, questions: Result<Json>)
    requires verification == Ok(true) && Found(keywords, "keywords").Some? && Found(questions, "questions").Some?
    ensures var r := StartRun(s, request, verification, keywords, questions);
      && r.interview.isInterviewActive && r.interview.questions == Found(questions, "questions").value
      && r.interview.currentQuestionIndex == 0 && r.interview.interviewQnA == []
      && !r.interview.interviewComplete && r.analysis == NoAnalysis
      && r.statusMessage == Some(PreparingFirstQuestion(request.name))
      && r.sessionToken == s.sessionToken + 1
  {
  }

  /** Every step keeps the answers in step with the questions and the indicator ids
      distinct. */
  lemma OpenedIsConsistent(s: Session)
    requires DistinctIds(s.activeLoaders)
    ensures Consistent(Opened(s))
  {
    WithLoaderDistinct(s.activeLoaders, KeywordLoader, KeywordMessages);
  }

  lemma VerifyKeepsConsistent(s: Session, attempt: Attempt, verification: Result<bool>)
    requires Consistent(s)
    ensures Consistent(AfterVerify(s, attempt, verification))
  {
    WithoutLoaderDistinct(s.activeLoaders, KeywordLoader);
  }

  lemma KeywordsKeepConsistent(s: Session, attempt: Attempt, reply: Result<Json>)
    requires Consistent(s)
    ensures Consistent(AfterKeywords(s, attempt, reply))
  {
    var kept := WithoutLoader(s.activeLoaders, KeywordLoader);
    WithoutLoaderDistinct(s.activeLoaders, KeywordLoader);
    WithLoaderDistinct(kept, QuestionLoader, QuestionMessages);
  }

  lemma QuestionsKeepConsistent(s: Session, attempt: Attempt, reply: Result<Json>)
    requires Consistent(s)
    ensures Consistent(AfterQuestions(s, attempt, reply))
  {
    WithoutLoaderDistinct(s.activeLoaders, QuestionLoader);
  }

  lemma AnalysisBegunKeepsConsistent(s: Session)
    requires Consistent(s)
    ensures Consistent(AnalysisBegun(s))
  {
    WithLoaderDistinct(s.activeLoaders, AnalysisLoader, AnalysisMessages);
  }

  lemma AnalysisFinishedKeepsConsistent(s: Session, outcome: Result<seq<AnswerFeedback>>)
    requires Consistent(s)
    ensures Consistent(AnalysisFinished(s, outcome))
  {
    WithoutLoaderDistinct(s.activeLoaders, AnalysisLoader);
  }

  // ---------------------------------------------------------------- the controller

  /** The interview controller.  The hook's React state is held as one `Session` value
      that each handler replaces, much as each state setter replaces its own value; the
      form inputs and the speech hook sit beside it. */
  class Manager {
    var jobDescription: string
    var candidateName: string
    var questionCount: int
    var difficulty: Difficulty
    /** The hook's state, `startInFlightRef` and `sessionTokenRef` included. */
    var session: Session
    /** The speech-capture hook the controller drives. */
    const speech: Recognizer

    predicate Valid()
      reads this`session, speech`transcript, speech`interimTranscript
    {
      Consistent(session) && speech.Valid()
    }

    function Combined(): string
      reads speech`transcript, speech`interimTranscript
    {
      CombinedTranscript(speech.transcript, speech.interimTranscript)
    }

    predicate HasCandidateName()
      reads this`candidateName
    {
      !IsBlank(candidateName)
    }

    predicate HasDescription()
      reads this`jobDescription
    {
      !IsBlank(jobDescription)
    }

    /** The state of a freshly mounted controller. */
    constructor()
      ensures Valid() && fresh(speech)
      ensures jobDescription == "" && candidateName == "" && questionCount == 3 && difficulty == Medium
      ensures session == Session(Capture(RequestPermission, false, false), Some(AllowMicrophone), [],
                                 NoInterview, Silent, NoAnalysis, 0)
      ensures !speech.isListening && speech.transcript == "" && speech.interimTranscript == ""
    {
      jobDescription, candidateName, questionCount, difficulty := "", "", 3, Medium;
      session := Session(Capture(RequestPermission, false, false), Some(AllowMicrophone), [],
                         NoInterview, Silent, NoAnalysis, 0);
      speech := new Recognizer();
    }

    // -------------------------------------------------------------- loaders

    /** `startLoader`. */
    method StartLoader(id: string, messages: seq<string>)
      requires DistinctIds(session.activeLoaders)
      modifies this`session
      ensures session == old(session).(activeLoaders := WithLoader(old(session).activeLoaders, id, messages))
      ensures DistinctIds(session.activeLoaders)
    {
      WithLoaderDistinct(session.activeLoaders, id, messages);
      session := session.(activeLoaders := WithoutLoader(session.activeLoaders, id) + [Loader(id, messages)]);
    }

    /** `stopLoader`. */
    method StopLoader(id: string)
      requires DistinctIds(session.activeLoaders)
      modifies this`session
      ensures session == old(session).(activeLoaders := WithoutLoader(old(session).activeLoaders, id))
      ensures DistinctIds(session.activeLoaders)
    {
      WithoutLoaderDistinct(session.activeLoaders, id);
      session := session.(activeLoaders := WithoutLoader(session.activeLoaders, id));
    }

    // -------------------------------------------------------------- effects

    /** The support effect: an unsupported browser is told so. */
    method SupportEffect()
      requires Valid()
      modifies this`session
      ensures Valid()
      ensures session == if speech.isSupported then old(session)
                         else old(session).(statusMessage := Some(RecognitionUnsupported))
    {
      if !speech.isSupported {
        session := session.(statusMessage := Some(RecognitionUnsupported));
      }
    }

    /** The description effect: without a description the transcript is discarded. */
    method DescriptionEffect()
      requires Valid()
      modifies speech`transcript, speech`interimTranscript
      ensures Valid()
      ensures HasDescription() ==>
        speech.transcript == old(speech.transcript) && speech.interimTranscript == old(speech.interimTranscript)
      ensures !HasDescription() ==> speech.transcript == "" && speech.interimTranscript == ""
    {
      if !HasDescription() {
        speech.ResetTranscript();
      }
    }

    /** A prerequisite of the ambient capture is missing: the pause is lifted, the
        phase and the message say what is missing, and capture stops and is cleared. */
    method ClearCapture(next: Phase, message: string)
      requires speech.Valid()
      modifies this`session, speech`isListening, speech`transcript, speech`interimTranscript
      ensures speech.Valid()
      ensures session == old(session).(capture := old(session).capture.(manualPause := false, phase := next),
                                       statusMessage := Some(message))
      ensures speech.transcript == "" && speech.interimTranscript == ""
      ensures speech.isListening == (old(speech.isListening) && !speech.hasRecognizer)
    {
      session := session.(capture := session.capture.(manualPause := false, phase := next),
                          statusMessage := Some(message));
      speech.StopListening();
      speech.ResetTranscript();
    }

    /** The ambient-listening effect: the session moves as `Ambient` says; a missing
        prerequisite also stops and clears the capture, and when `AmbientLaunches`
        holds listening is started (`recognition.start()` turning out as `begin`), its
        outcome returned for `SettleAmbientStart`. */
    method AmbientEffect(access: MediaAccess, begin: Outcome) returns (launched: Option<Outcome>)
      requires Valid()
      modifies this`session, speech`isListening, speech`transcript, speech`interimTranscript,
               speech`hasPermission, speech`error
      ensures Valid()
      ensures session == Ambient(old(session), old(speech.hasPermission), HasCandidateName(), HasDescription(),
                                 old(speech.isListening))
      ensures AmbientClears(old(session), old(speech.hasPermission), HasCandidateName(), HasDescription()) ==>
        && speech.transcript == "" && speech.interimTranscript == ""
        && speech.isListening == (old(speech.isListening) && !speech.hasRecognizer)
        && speech.hasPermission == old(speech.hasPermission) && speech.error == old(speech.error)
      ensures launched.Some? <==> AmbientLaunches(old(session), old(speech.hasPermission), HasCandidateName(),
                                                  HasDescription(), old(speech.isListening))
      ensures launched.Some? ==>
        && launched.value == StartOutcome(old(speech.isSupported && speech.hasRecognizer), true, access, begin)
        && speech.hasPermission && speech.transcript == old(speech.transcript)
        && (old(speech.isSupported && speech.hasRecognizer) ==> speech.error == None && speech.interimTranscript == "")
        && (!old(speech.isSupported && speech.hasRecognizer) ==>
              speech.error == old(speech.error) && speech.interimTranscript == old(speech.interimTranscript))
        && speech.isListening == launched.value.Pass?
      ensures launched.None? ==>
        (AmbientClears(old(session), old(speech.hasPermission), HasCandidateName(), HasDescription())
         || unchanged(speech))
    {
      if session.interview.isInterviewActive {
        return None;
      }
      if !speech.hasPermission {
        ClearCapture(RequestPermission, AllowMicrophone);
        return None;
      }
      if !HasCandidateName() {
        ClearCapture(PasteDescription, AddYourName);
        return None;
      }
      if !HasDescription() {
        ClearCapture(PasteDescription, PasteTheDescription);
        return None;
      }
      if session.capture.manualPause {
        session := session.(capture := session.capture.(phase := Paused), statusMessage := Some(CapturePaused));
        return None;
      }
      if speech.isListening {
        session := session.(capture := session.capture.(phase := Listening), statusMessage := Some(NowListening));
        return None;
      }
      if session.capture.startInFlight {
        session := session.(capture := session.capture.(phase := StartingListener),
                            statusMessage := Some(PreparingMicrophone));
        return None;
      }
      session := session.(capture := session.capture.(phase := StartingListener, startInFlight := true),
                          statusMessage := Some(PreparingMicrophone));
      var outcome := speech.StartListening(access, begin);
      return Some(outcome);
    }

    /** The rest of the ambient start once listening has started or failed. */
    method SettleAmbientStart(outcome: Outcome)
      requires Valid()
      modifies this`session
      ensures Valid()
      ensures session == AmbientSettled(old(session), outcome)
    {
      match outcome {
        case Pass =>
          session := session.(capture := session.capture.(phase := Listening, startInFlight := false),
                              statusMessage := Some(NowListening));
        case Fail(thrown) =>
          session := session.(statusMessage := Some(MessageOr(thrown, MicrophoneFallback)),
                              capture := Capture(Paused, true, false));
      }
    }

    /** `speakQuestion`, reduced to its flags. */
    method SpeakQuestion(text: string, synthesisPresent: bool)
      requires Valid()
      modifies this`session
      ensures Valid()
      ensures session == Spoken(old(session), text, synthesisPresent)
    {
      if text == "" {
        return;
      }
      if !synthesisPresent {
        session := session.(narration := session.narration.(narrationError := Some(SynthesisUnsupported)));
        return;
      }
      session := session.(narration := Narration(true, None));
    }

    /** The utterance finished (`failed == false`) or failed: narration is over, and a
        failure is reported; nothing else changes. */
    method NarrationEnded(failed: bool)
      requires Valid()
      modifies this`session
      ensures Valid()
      ensures !session.narration.isNarrating
      ensures session.narration.narrationError == if failed then Some(AudioFailed) else old(session).narration.narrationError
      ensures session == old(session).(narration := session.narration)
    {
      session := session.(narration := session.narration.(isNarrating := false));
      if failed {
        session := session.(narration := session.narration.(narrationError := Some(AudioFailed)));
      }
    }

    /** `handlePlayQuestion`: the current question is read out, if there is one. */
    method PlayQuestion(synthesisPresent: bool)
      requires Valid()
      modifies this`session
      ensures Valid()
      ensures !HasQuestion(old(session)) ==> session == old(session)
      ensures HasQuestion(old(session)) ==> session == Spoken(old(session), Question(old(session)).value, synthesisPresent)
    {
      if !HasQuestion(session) {
        return;
      }
      SpeakQuestion(Question(session).value, synthesisPresent);
    }

    /** The presentation effect: the session moves as `Presented` says; inside an
        interview the capture also stops and is cleared. */
    method PresentCurrent(synthesisPresent: bool)
      requires Valid()
      modifies this`session, speech`isListening, speech`transcript, speech`interimTranscript
      ensures Valid()
      ensures session == Presented(old(session), synthesisPresent)
      ensures !old(session).interview.isInterviewActive ==> unchanged(speech)
      ensures old(session).interview.isInterviewActive ==>
        && speech.transcript == "" && speech.interimTranscript == ""
        && speech.isListening == (old(speech.isListening) && !speech.hasRecognizer)
    {
      if !session.interview.isInterviewActive {
        return;
      }
      speech.StopListening();
      speech.ResetTranscript();
      if !HasQuestion(session) {
        session := session.(interview := session.interview.(isAnswering := false, interviewComplete := true),
                            statusMessage := Some(InterviewCompleteMessage));
        return;
      }
      var question := Question(session).value;
      var position := QuestionOf(session.interview.currentQuestionIndex, |session.interview.questions|);
      session := session.(interview := session.interview.(isAnswering := false, interviewComplete := false),
                          statusMessage := Some(position));
      SpeakQuestion(question, synthesisPresent);
    }

    // -------------------------------------------------------------- answering

    /** `handleStartAnswer` up to `await startListening()`: inside an interview with a
        question to answer the capture is cleared and listening is to be started
        (`proceed`); otherwise nothing happens.  The session is not touched. */
    method BeginStartAnswer() returns (proceed: bool)
      requires Valid()
      modifies speech`transcript, speech`interimTranscript
      ensures Valid()
      ensures proceed == (session.interview.isInterviewActive && HasQuestion(session))
      ensures !proceed ==> unchanged(speech)
      ensures proceed ==> speech.transcript == "" && speech.interimTranscript == ""
    {
      proceed := session.interview.isInterviewActive && HasQuestion(session);
      if proceed {
        speech.ResetTranscript();
      }
    }

    /** `handleStartAnswer` after `await startListening()` settled as `started`,
        applied to the session as it is by then, whatever happened meanwhile. */
    method SettleStartAnswer(started: Outcome)
      requires Valid()
      modifies this`session
      ensures Valid()
      ensures session == AnswerStarted(old(session), started)
    {
      match started {
        case Pass =>
          session := session.(interview := session.interview.(isAnswering := true),
                              statusMessage := Some(RecordingAnswer));
        case Fail(thrown) =>
          session := session.(statusMessage := Some(MessageOr(thrown, StartAnswerFallback)));
      }
    }

    /** `handleStartAnswer` when nothing runs while listening starts: inside an interview
        with a question to answer, the capture is cleared and listening started
        (`recognition.start()` turning out as `begin`), and the session moves as
        `AnswerStarted` says; otherwise nothing happens. */
    method HandleStartAnswer(access: MediaAccess, begin: Outcome) returns (started: Outcome)
      requires Valid()
      modifies this`session, speech`isListening, speech`transcript, speech`interimTranscript,
               speech`hasPermission, speech`error
      ensures Valid()
      ensures !(old(session).interview.isInterviewActive && HasQuestion(old(session))) ==>
        started == Pass && session == old(session) && unchanged(speech)
      ensures old(session).interview.isInterviewActive && HasQuestion(old(session)) ==>
        && started == StartOutcome(old(speech.isSupported && speech.hasRecognizer), old(speech.hasPermission),
                                   access, begin)
        && session == AnswerStarted(old(session), started)
        && speech.transcript == "" && speech.interimTranscript == ""
        && speech.hasPermission == (old(speech.hasPermission) ||
                                    (old(speech.isSupported && speech.hasRecognizer) && access == Granted))
        && speech.error == (if ReachesStart(old(speech.isSupported && speech.hasRecognizer),
                                            old(speech.hasPermission), access)
                            then None else old(speech.error))
        && speech.isListening == (old(speech.isListening) || started.Pass?)
    {
      var proceed := BeginStartAnswer();
      if !proceed {
        return Pass;
      }
      started := speech.StartListening(access, begin);
      SettleStartAnswer(started);
    }

    /** `handleRestartAnswer` up to `await startListening()`: while answering the
        capture is cleared; if listening is still on the restart is reported at once,
        otherwise listening is to be started (`relaunch`). */
    method BeginRestartAnswer() returns (proceed: bool, relaunch: bool)
      requires Valid()
      modifies this`session, speech`transcript, speech`interimTranscript
      ensures Valid()
      ensures proceed == old(session).interview.isAnswering
      ensures relaunch == (proceed && !speech.isListening)
      ensures !proceed ==> session == old(session) && unchanged(speech)
      ensures proceed ==> speech.transcript == "" && speech.interimTranscript == ""
      ensures proceed && !relaunch ==> session == AnswerRestarted(old(session), Pass)
      ensures relaunch ==> session == old(session)
    {
      proceed := session.interview.isAnswering;
      if !proceed {
        return false, false;
      }
      speech.ResetTranscript();
      relaunch := !speech.isListening;
      if !relaunch {
        session := session.(statusMessage := Some(RecordingRestarted));
      }
    }

    /** `handleRestartAnswer` after `await startListening()` settled as `restarted`,
        applied to the session as it is by then. */
    method SettleRestartAnswer(restarted: Outcome)
      requires Valid()
      modifies this`session
      ensures Valid()
      ensures session == AnswerRestarted(old(session), restarted)
    {
      match restarted {
        case Pass =>
          session := session.(statusMessage := Some(RecordingRestarted));
        case Fail(thrown) =>
          session := session.(statusMessage := Some(MessageOr(thrown, RestartFallback)));
      }
    }

    /** `handleRestartAnswer` when nothing runs while listening restarts: while
        answering, the capture is cleared and, if it had stopped, listening restarts
        (`recognition.start()` turning out as `begin`); the session moves as
        `AnswerRestarted` says. */
    method HandleRestartAnswer(access: MediaAccess, begin: Outcome) returns (restarted: Outcome)
      requires Valid()
      modifies this`session, speech`isListening, speech`transcript, speech`interimTranscript,
               speech`hasPermission, speech`error
      ensures Valid()
      ensures !old(session).interview.isAnswering ==> restarted == Pass && session == old(session) && unchanged(speech)
      ensures old(session).interview.isAnswering ==>
        && session == AnswerRestarted(old(session), restarted)
        && speech.transcript == "" && speech.interimTranscript == ""
      ensures old(session).interview.isAnswering && old(speech.isListening) ==>
        && restarted == Pass && speech.isListening
        && speech.hasPermission == old(speech.hasPermission) && speech.error == old(speech.error)
      ensures old(session).interview.isAnswering && !old(speech.isListening) ==>
        && restarted == StartOutcome(old(speech.isSupported && speech.hasRecognizer), old(speech.hasPermission),
                                     access, begin)
        && speech.hasPermission == (old(speech.hasPermission) ||
                                    (old(speech.isSupported && speech.hasRecognizer) && access == Granted))
        && speech.error == (if ReachesStart(old(speech.isSupported && speech.hasRecognizer),
                                            old(speech.hasPermission), access)
                            then None else old(speech.error))
        && speech.isListening == restarted.Pass?
    {
      var proceed, relaunch := BeginRestartAnswer();
      restarted := Pass;
      if relaunch {
        restarted := speech.StartListening(access, begin);
        SettleRestartAnswer(restarted);
      }
    }

    /** `handleSubmitAnswer`: the session moves as `Submitted` says, with the combined
        transcript as the answer; with a question to answer, listening also stops. */
    method HandleSubmitAnswer()
      requires Valid()
      modifies this`session, speech`isListening
      ensures Valid()
      ensures session == Submitted(old(session), old(Combined()))
      ensures !HasQuestion(old(session)) ==> unchanged(speech)
      ensures HasQuestion(old(session)) ==> speech.isListening == (old(speech.isListening) && !speech.hasRecognizer)
    {
      if !HasQuestion(session) {
        return;
      }
      SubmitRecordsOneAnswer(session, Combined());
      var question := Question(session).value;
      var answer := Trim(Combined());
      TrimOfTrimmed(Combined());
      speech.StopListening();
      var recorded := session.interview.interviewQnA + [InterviewAnswer(question, answer)];
      session := session.(interview := session.interview.(
                            isAnswering := false, interviewQnA := recorded,
                            currentQuestionIndex := session.interview.currentQuestionIndex + 1));
    }

    /** `endInterview`: capture stopped and cleared, the session reset as `Ended`
        says; the form inputs and the phase stay. */
    method EndInterview()
      requires Valid()
      modifies this`session, speech`isListening, speech`transcript, speech`interimTranscript
      ensures Valid()
      ensures session == Ended(old(session))
      ensures speech.transcript == "" && speech.interimTranscript == ""
      ensures speech.isListening == (old(speech.isListening) && !speech.hasRecognizer)
    {
      speech.StopListening();
      speech.ResetTranscript();
      session := session.(interview := NoInterview, capture := session.capture.(manualPause := false),
                          narration := Silent, statusMessage := Some(InterviewEnded),
                          analysis := NoAnalysis, activeLoaders := []);
      session := session.(capture := session.capture.(startInFlight := false),
                          sessionToken := session.sessionToken + 1);
    }

    // -------------------------------------------------------------- answer analysis

    /** The first half of `runAnswerAnalysis`: without answers nothing happens;
        otherwise the session moves as `AnalysisBegun` says and the answers the
        analysis is about are returned. */
    method BeginAnalysis() returns (requested: Option<seq<InterviewAnswer>>)
      requires Valid()
      modifies this`session
      ensures Valid()
      ensures session == if |old(session).interview.interviewQnA| == 0 then old(session) else AnalysisBegun(old(session))
      ensures requested == if |session.interview.interviewQnA| == 0 then None else Some(session.interview.interviewQnA)
    {
      AnalysisBegunKeepsConsistent(session);
      if |session.interview.interviewQnA| == 0 {
        return None;
      }
      StartLoader(AnalysisLoader, AnalysisMessages);
      session := session.(analysis := session.analysis.(isAnalyzingAnswers := true, analysisError := None));
      return Some(session.interview.interviewQnA);
    }

    /** The second half of `runAnswerAnalysis`, once the analysis has settled. */
    method FinishAnalysis(outcome: Result<seq<AnswerFeedback>>)
      requires Valid()
      modifies this`session
      ensures Valid()
      ensures session == AnalysisFinished(old(session), outcome)
    {
      AnalysisFinishedKeepsConsistent(session, outcome);
      match outcome {
        case Ok(feedback) =>
          session := session.(analysis := session.analysis.(analysisResults := feedback));
        case Err(thrown) =>
          session := session.(analysis := session.analysis.(analysisError := Some(MessageOr(thrown, AnalysisFallback)),
                                                            analysisResults := []));
      }
      session := session.(analysis := session.analysis.(isAnalyzingAnswers := false));
      StopLoader(AnalysisLoader);
    }

    /** The analysis effect: the analysis starts exactly when it is due. */
    method AnalysisEffect() returns (requested: Option<seq<InterviewAnswer>>)
      requires Valid()
      modifies this`session
      ensures Valid()
      ensures requested.Some? <==> AnalysisDue(old(session))
      ensures requested.Some? ==> requested.value == session.interview.interviewQnA && session == AnalysisBegun(old(session))
      ensures requested.None? ==> session == old(session)
    {
      if !session.interview.interviewComplete || |session.interview.interviewQnA| == 0 {
        return None;
      }
      var a := session.analysis;
      if |a.analysisResults| > 0 || a.isAnalyzingAnswers || Truthy(a.analysisError) {
        return None;
      }
      requested := BeginAnalysis();
    }

    // -------------------------------------------------------------- starting an interview

    /** `startInterview` up to its first `await`: nothing without a Writer global; a
        blank name only asks for the name; otherwise the inputs are captured and the
        availability probe is awaited.  The token is not touched. */
    method StartInterview(writerPresent: bool) returns (request: Option<Request>)
      requires Valid()
      modifies this`session
      ensures Valid()
      ensures !writerPresent ==> request == None && session == old(session)
      ensures writerPresent && !HasCandidateName() ==>
        request == None && session == old(session).(statusMessage := Some(EnterYourName))
      ensures writerPresent && HasCandidateName() ==>
        && request == Some(Request(Trim(candidateName), jobDescription, questionCount, difficulty))
        && session == old(session)
    {
      if !writerPresent {
        return None;
      }
      var trimmedName := Trim(candidateName);
      if trimmedName == "" {
        session := session.(statusMessage := Some(EnterYourName));
        return None;
      }
      return Some(Request(trimmedName, jobDescription, questionCount, difficulty));
    }

    /** After the availability probe: "available" opens an attempt with the next
        token, the session moving as `Opened` says; any other answer ends the call
        with no change. */
    method ResumeAfterAvailability(request: Request, availability: Result<string>) returns (attempt: Option<Attempt>)
      requires Valid()
      modifies this`session
      ensures Valid()
      ensures session == if availability == Ok("available") then Opened(old(session)) else old(session)
      ensures attempt == if availability == Ok("available") then Some(Attempt(session.sessionToken, request)) else None
    {
      OpenedIsConsistent(session);
      if availability.Err? || availability.value == "unavailable" {
        return None;
      }
      if availability.value != "available" {
        return None;
      }
      session := session.(sessionToken := session.sessionToken + 1);
      var token := session.sessionToken;
      session := session.(interview := session.interview.(interviewQnA := [], questions := [],
                                                          currentQuestionIndex := 0, interviewComplete := false,
                                                          isInterviewActive := false),
                          analysis := NoAnalysis);
      StartLoader(KeywordLoader, KeywordMessages);
      return Some(Attempt(token, request));
    }

    /** After the relevance check: the session moves as `AfterVerify` says; only a live
        attempt with a relevant description proceeds. */
    method ResumeAfterVerify(attempt: Attempt, verification: Result<bool>) returns (proceed: bool)
      requires Valid()
      modifies this`session
      ensures Valid()
      ensures session == AfterVerify(old(session), attempt, verification)
      ensures proceed <==> attempt.token == session.sessionToken && verification == Ok(true)
    {
      VerifyKeepsConsistent(session, attempt, verification);
      var live := attempt.token == session.sessionToken;
      if live && verification == Ok(true) {
        return true;
      }
      if live {
        session := session.(statusMessage := Some(if verification.Ok? then UnrecognisedDescription else KeywordsFailed));
      }
      StopLoader(KeywordLoader);
      return false;
    }

    /** After keyword extraction: the session moves as `AfterKeywords` says; a live
        attempt with keywords proceeds with them. */
    method ResumeAfterKeywords(attempt: Attempt, reply: Result<Json>) returns (keywords: Option<seq<string>>)
      requires Valid()
      modifies this`session
      ensures Valid()
      ensures session == AfterKeywords(old(session), attempt, reply)
      ensures keywords == if attempt.token == session.sessionToken then Found(reply, "keywords") else None
    {
      KeywordsKeepConsistent(session, attempt, reply);
      var live := attempt.token == session.sessionToken;
      if live && reply.Err? {
        session := session.(statusMessage := Some(KeywordsFailed));
      }
      StopLoader(KeywordLoader);
      if !live || reply.Err? {
        return None;
      }
      var found := ArrayMember(reply.value, "keywords");
      if found.None? || |found.value| == 0 {
        session := session.(statusMessage := Some(NoKeywords));
        return None;
      }
      StartLoader(QuestionLoader, QuestionMessages);
      return found;
    }

    /** After question generation: the session moves as `AfterQuestions` says. */
    method ResumeAfterQuestions(attempt: Attempt, reply: Result<Json>)
      requires Valid()
      modifies this`session
      ensures Valid()
      ensures session == AfterQuestions(old(session), attempt, reply)
    {
      QuestionsKeepConsistent(session, attempt, reply);
      if attempt.token == session.sessionToken {
        match reply {
          case Err(_) =>
            session := session.(statusMessage := Some(QuestionsFailed));
          case Ok(json) =>
            var found := ArrayMember(json, "questions");
            if found.Some? && |found.value| > 0 {
              session := session.(interview := session.interview.(questions := found.value, currentQuestionIndex := 0,
                                                                  interviewQnA := [], isInterviewActive := true),
                                  statusMessage := Some(PreparingFirstQuestion(attempt.request.name)));
            } else {
              session := session.(statusMessage := Some(NoQuestions));
            }
        }
      }
      StopLoader(QuestionLoader);
    }
  }
}
