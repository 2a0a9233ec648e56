# PrepMate interview controller — a Dafny model

PrepMate is a browser app for practising job interviews. The candidate types a name and pastes
a job description. The app then uses Chrome's on-device Writer API (Gemini Nano) to:

- check that the description is relevant;
- extract technical keywords from it;
- generate interview questions from the keywords.

It reads each question aloud. It records the spoken answers through the browser's
SpeechRecognition, and at the end asks the Writer for feedback on every answer.

This project models the logic behind that flow and proves properties of it. It has one module
per source file, plus two shared modules:

| module | file | what it models |
|---|---|---|
| `Outcomes` | outcomes.dfy | Settled promises (`Result`, `Outcome`) and thrown values (`Thrown`). `MessageOr` is the `error instanceof Error ? error.message : fallback` read that every `catch` block does. |
| `Text` | text.dfy | The JavaScript string operations the code relies on, over `seq<char>`: `trim` (the full ECMAScript whitespace set), `includes`, `indexOf`, `replace` with a string and with a global pattern, `join`, `parseInt` of a digit run, and number-to-text in template literals. |
| `Prompts` | prompts.dfy | The four prompt builders, including `JSON.stringify` of the keyword array. |
| `WriterApiCheck` | writer_check.dfy | The browser-compatibility ladder: Chrome, version 138 or later, the Writer global, then the Writer's own availability. |
| `DownloadManager` | download_manager.dfy | The AI-engine status badge, and how mounting and "download" move its availability. |
| `InterviewService` | interview_service.dfy | The generation service: cleaning a Writer reply, shape checks on the parsed JSON, and the per-answer feedback loop. |
| `SpeechRecognition` | speech.dfy | The speech-capture hook as a class `Recognizer`: the two transcript buffers and the flags, with the `onresult` loop as a method. |
| `InterviewManager` | interview_manager.dfy | The session controller. |

## How the controller is modelled

The controller's React state is grouped into one `Session` value held by the class `Manager`.
It covers:

- capture: phase, manual pause, the start-in-flight ref;
- the status message and the progress indicators;
- the interview: questions, position, answers, and the answering and complete flags;
- narration and analysis;
- the session token.

Each effect is one method. So is each stretch of the controller's async handlers between two
`await`s: the start pipeline and the answer handlers. Each method is proved against a function on `Session` (`Ended`, `Submitted`, `Ambient`, `Presented`,
`AfterVerify`, `AfterKeywords`, `AfterQuestions`, …), and the lemmas are stated about those
functions.

What an awaited call settles with is a parameter of the method that continues after it. This
covers `Writer.create`, `writer.write`, `JSON.parse`, `getUserMedia`, `startListening()` and
`Writer.availability()`. `HandleStartAnswer` and `HandleRestartAnswer` chain their two stretches
for a start that nothing interrupts. A start attempt carries the token it took and the inputs it captured.
`StartRun` chains the three stages of one uninterrupted attempt. Stale attempts are modelled by
resuming an attempt whose token is no longer the session's.

Points where the code behaves in ways a reader may not expect (the model follows the code):

- **Ending the interview:** `endInterview` moves the session token on by one. It does not reset
  it (src/hooks/useInterviewManager.ts:297).
- **Stale attempts:** a stale attempt is not completely silent. Its `finally` blocks still stop
  its progress indicators. The indicators are keyed by fixed ids, so an older attempt settling
  late takes down a newer attempt's indicator of the same kind
  (`InterviewManager.StaleCleanupStopsNewerIndicator`).
- **Order of the start checks:** `startInterview` first returns silently when there is no Writer
  global, and only then checks the name.
- **Question count:** it defaults to 3 and is never clamped to a range.
- **Refused permission:** a refused microphone permission sets `hasPermission` to false. It does
  not leave it unchanged.
- **Empty questions:** an empty generated question counts as "no question". Presenting it ends
  the interview early (`InterviewManager.EmptyQuestionCompletes`).
- **Ending while the microphone prompt is open:** `handleStartAnswer` does not check the
  session again after `await startListening()`. If the interview is ended while the permission
  prompt is open, a later grant marks the ended session as answering and shows "Recording your
  answer..." (`InterviewManager.AnswerStartedAfterEnd`).

## Model

| member | source | states |
|---|---|---|
| Outcomes.MessageOr | src/hooks/useInterviewManager.ts:189-194 | A thrown `Error` shows its own message; any other thrown value shows the fallback. |
| Text.TrimStart | src/services/interviewService.ts:29 | The result is empty or starts with a non-space, and every character dropped from the front is whitespace. |
| Text.TrimEnd | src/services/interviewService.ts:29 | The result is empty or ends with a non-space, and every character dropped from the back is whitespace. |
| Text.TrimStartIsSuffix | src/services/interviewService.ts:29 | What is kept from the front is a suffix of the input. |
| Text.TrimEndIsPrefix | src/services/interviewService.ts:29 | What is kept from the back is a prefix of the input. |
| Text.Trim | src/services/interviewService.ts:29 | The result has no whitespace at either end and is no longer than the input. |
| Text.TrimSurrounds | src/services/interviewService.ts:29 | The input is the trimmed text with only whitespace around it. |
| Text.TrimUnique | src/services/interviewService.ts:29 | Trim is the only trimmed text that the input surrounds with whitespace, so it is fully determined by that property. |
| Text.TrimOfTrimmed | src/hooks/useInterviewManager.ts:357 | Trimming already-trimmed text changes nothing, so trim is idempotent. |
| Text.TrimIgnoresPadding | src/hooks/useSpeechRecognition.ts:59 | Whitespace added on either side disappears under trim. |
| Text.TrimmedJoin | src/hooks/useInterviewManager.ts:219-222 | Two non-empty trimmed texts joined by one space are already trimmed. |
| Text.BlankIffAllSpace | src/hooks/useInterviewManager.ts:117-118 | `!s.trim()` holds exactly when every character is whitespace. |
| Text.IndexOf | src/services/interviewService.ts:29 | Finds the leftmost occurrence; there is none exactly when the text does not contain the pattern. |
| Text.RemoveFirst | src/services/interviewService.ts:29 | `replace` with a string pattern removes only the leftmost occurrence; without one the text is unchanged. |
| Text.RemoveAllAbsent | src/services/interviewService.ts:29 | A global replace of a pattern that does not occur changes nothing. |
| Text.FencesRemoved | src/services/interviewService.ts:29 | After removing every "```" left to right, none is left: the removal never glues two backtick runs into a new fence. |
| Text.JoinPartAt | src/utils/prompts.ts:105 | Every part appears unchanged at its offset in the joined text. |
| Text.JoinContains | src/utils/prompts.ts:105 | Anything inside one part is inside the joined text. |
| Text.NatToString | src/utils/writerApiCheck.ts:23 | The rendering is all digits, has no leading zero, and parses back to the number. |
| Text.IntToStringInjective | src/utils/writerApiCheck.ts:23 | Two numbers that render alike are equal. |
| Text.LeadingDigits | src/utils/writerApiCheck.ts:17 | The greedy `\d+` prefix: all digits, and followed by a non-digit or the end. |
| Text.LeadingDigitsOf | src/utils/writerApiCheck.ts:17-18 | Digits followed by a non-digit are read back exactly. |
| Prompts.DifficultyLabelInjective | src/utils/prompts.ts:61-66 | The three difficulties get three different wordings. |
| Prompts.IntroQuestionGreets | src/utils/prompts.ts:59-68 | The first question greets the trimmed name, which can be cut back out, or "there" for a blank name, and ends with the fixed request for background. |
| Prompts.AddressedNameNeverBlank | src/utils/prompts.ts:59-60 | The addressed name is never empty: the trimmed name, or "the candidate" when blank. |
| Prompts.EscapeRoundTrip | src/utils/prompts.ts:74 | The string literal `JSON.stringify` writes for a keyword decodes back to the keyword. |
| Prompts.KeywordsJsonLists | src/utils/prompts.ts:74 | Every keyword appears in the keyword line as its own JSON string literal. |
| Prompts.QuestionLayoutPlaces | src/utils/prompts.ts:70-105 | The prompt has 34 lines; the keyword, count, address, first-question, calibration and validation lines sit at fixed places. |
| Prompts.PromptLineHasPiece | src/utils/prompts.ts:105 | Text inside one line of the question prompt is inside the prompt. |
| Prompts.QuestionPromptAsksCount | src/utils/prompts.ts:77-98 | The prompt asks for exactly `questionCount` questions at the chosen difficulty, and repeats the count in its checklist. |
| Prompts.QuestionPromptQuotesIntro | src/utils/prompts.ts:88 | The prompt quotes the fixed first question verbatim. |
| Prompts.QuestionPromptAddresses | src/utils/prompts.ts:80 | The prompt tells the model to speak to the addressed name. |
| Prompts.QuestionPromptCarriesKeywords | src/utils/prompts.ts:74 | Every keyword reaches the question prompt as a JSON string literal. |
| Prompts.AnalysisPromptQuotes | src/utils/prompts.ts:108-119 | The feedback prompt carries the question unchanged at a fixed place and ends with the fixed instructions. It never shows an empty answer: an empty answer becomes "No answer provided." and any other answer is shown unchanged. |
| Prompts.ParagraphsShape | src/utils/prompts.ts:34-50 | The sections appear in order, one blank line apart, and the description can be cut back out. |
| Prompts.KeywordPromptShape | src/utils/prompts.ts:34-42 | The keyword prompt is the fixed introduction, the trimmed description and the fixed instructions, separated by blank lines. |
| Prompts.RelevancePromptShape | src/utils/prompts.ts:44-50 | The relevance prompt is the fixed introduction, the trimmed description and the fixed instructions, separated by blank lines. |
| WriterApiCheck.FirstChromeToken | src/utils/writerApiCheck.ts:17 | Finds the leftmost position where `Chrome\/(\d+)` matches, or reports that it matches nowhere. |
| WriterApiCheck.ChromeVersionAbsent | src/utils/writerApiCheck.ts:17-18 | A user agent without "Chrome/" reads as version 0. |
| WriterApiCheck.ChromeVersionReads | src/utils/writerApiCheck.ts:17-18 | After any text that does not itself contain "Chrome/", the digits written after "Chrome/" are the version read, whatever non-digit follows them. |
| WriterApiCheck.CrOSVersionReads | src/utils/writerApiCheck.ts:17-18 | A ChromeOS user agent, whose platform token holds a capital C before "Chrome/", still reads its version. |
| WriterApiCheck.CheckWriterApiAvailability | src/utils/writerApiCheck.ts:1-51 | The guards apply in order: not Chrome, version below 138, no Writer global; then the probe decides. `isAvailable` holds exactly for "available" and `needsSetup` exactly for "requires-install" or a failed guard or probe. There is an error exactly for "unavailable" or a failed guard or probe. Available implies no setup and no error. |
| WriterApiCheck.VersionErrorNamesVersion | src/utils/writerApiCheck.ts:19-25 | The version error names the version read: different versions give different errors. |
| DownloadManager.WriterStatus | src/hooks/useDownloadManager.tsx:34-69 | "available" is the only ready tone. "downloading", "downloadable" and "checking" are the progress tones. "error" and every unrecognised value are warnings, and only unrecognised values get the "unavailable" caption. Each recognised value gets its own caption: "AI engine ready", "Downloading resources", "Preparing AI engine…", "Checking AI engine…" and the refresh advice for "error". |
| DownloadManager.WriterStatusDistinguishes | src/hooks/useDownloadManager.tsx:34-69 | Two availabilities share a caption exactly when they are equal or both unrecognised. |
| DownloadManager.DownloadManager.constructor | src/hooks/useDownloadManager.tsx:12-13 | The availability starts as "unavailable". |
| DownloadManager.DownloadManager.Mount | src/hooks/useDownloadManager.tsx:15-32 | No Writer global, or a failed probe, gives "unavailable"; otherwise the probe's answer. |
| DownloadManager.DownloadManager.OnStartDownload | src/hooks/useDownloadManager.tsx:71-115 | No Writer gives "unavailable". When not already available, "downloading" is shown first; a failed create then shows "error", and a successful one shows exactly one more value. Otherwise the re-probe's answer is shown, or "error" if the re-probe fails. The last value shown is the new availability. |
| SpeechRecognition.Batch | src/hooks/useSpeechRecognition.ts:45 | The slots read are exactly `resultIndex` to the end. |
| SpeechRecognition.CollectedAppend | src/hooks/useSpeechRecognition.ts:45-56 | Collecting two runs one after the other is collecting their concatenation, so the order of the slots is the order of the text. |
| SpeechRecognition.CollectedEmptyIff | src/hooks/useSpeechRecognition.ts:58-65 | A run collects to nothing exactly when none of its slots of that kind carries text. |
| SpeechRecognition.CollectBatch | src/hooks/useSpeechRecognition.ts:42-56 | The loop yields the final and the interim texts of the batch, each concatenated in index order, with missing slots skipped. |
| SpeechRecognition.TranscriptStarts | src/hooks/useSpeechRecognition.ts:59 | On an empty transcript the new final text becomes the transcript, trimmed. |
| SpeechRecognition.TranscriptAppends | src/hooks/useSpeechRecognition.ts:59 | New final words go after the settled transcript, one space apart. Only the outer whitespace is dropped. |
| SpeechRecognition.Recognizer.constructor | src/hooks/useSpeechRecognition.ts:12-18 | The initial state: unsupported, no recogniser, no permission, not listening, empty buffers, no error. |
| SpeechRecognition.Recognizer.Mount | src/hooks/useSpeechRecognition.ts:20-39 | With an implementation the hook is supported and owns a recogniser; without one it is unsupported; nothing else changes. |
| SpeechRecognition.Recognizer.Unmount | src/hooks/useSpeechRecognition.ts:79-82 | The recogniser is released. |
| SpeechRecognition.Recognizer.OnResult | src/hooks/useSpeechRecognition.ts:41-66 | Final text extends the transcript by `Appended` and clears the interim buffer. Interim text replaces the interim buffer, trimmed. A batch with neither leaves both buffers alone. Both buffers stay trimmed. |
| SpeechRecognition.Recognizer.OnError | src/hooks/useSpeechRecognition.ts:68-71 | The error code is kept and listening stops. |
| SpeechRecognition.Recognizer.OnEnd | src/hooks/useSpeechRecognition.ts:73-75 | Listening stops; the last error stays. |
| SpeechRecognition.Recognizer.RequestPermission | src/hooks/useSpeechRecognition.ts:85-98 | A grant records the permission. A refusal withdraws it and rejects with the refusal, or with the generic refusal for a non-`Error`. Without `getUserMedia` it rejects and changes nothing. |
| SpeechRecognition.StartOutcome | src/hooks/useSpeechRecognition.ts:100-115 | The call succeeds exactly when it reaches `recognition.start()` and that does not throw. Once the start is reached its outcome is the start's. Unsupported gives the not-supported error. Every rejection before the start is an `Error`. |
| SpeechRecognition.Recognizer.StartListening | src/hooks/useSpeechRecognition.ts:100-115 | Settles as `StartOutcome`. The permission is asked for only when missing: a grant records it, and a refusal leaves it unset. The error and the interim buffer are cleared exactly when the start is reached, even if `recognition.start()` then throws. Listening begins only when the call succeeds. The transcript is never touched. |
| SpeechRecognition.Recognizer.StopListening | src/hooks/useSpeechRecognition.ts:117-125 | Without a recogniser nothing happens; otherwise listening stops. Stopping twice is stopping once. |
| SpeechRecognition.Recognizer.ResetTranscript | src/hooks/useSpeechRecognition.ts:127-130 | Both buffers are empty and nothing else changes. |
| InterviewService.LastMember | src/services/interviewService.ts:50 | A member is found exactly when some field has the key, and the value found is that of the last such field. |
| InterviewService.ArrayMember | src/hooks/useInterviewManager.ts:536-540 | An array is found exactly when the member exists and is an array; the value found is that array's items. |
| InterviewService.SanitizeClean | src/services/interviewService.ts:28-29 | A cleaned reply holds no code fence and has no whitespace at either end. |
| InterviewService.SanitizePlainReply | src/services/interviewService.ts:28-29 | A reply with neither "json" nor a fence is only trimmed. |
| InterviewService.RemoveJsonTag | src/services/interviewService.ts:29 | In a fenced block tagged json, the "json" removed is the tag. |
| InterviewService.SanitizeUnwrapsFencedBlock | src/services/interviewService.ts:28-29 | A fenced json block comes out as its body, trimmed, even when the body mentions "json" itself. |
| InterviewService.Ask | src/services/interviewService.ts:31-38 | The first failure among create, write and parse is what the call rejects with; otherwise it gives the parsed, cleaned reply. This is also the body of `generateKeywords` and `generateInterviewQuestions` (lines 57-75). |
| InterviewService.VerifyJobDescription | src/services/interviewService.ts:40-55 | Succeeds exactly when the reply parsed and carries a boolean `result`, and then yields that boolean. Earlier failures propagate; a bad shape gives the shape error. |
| InterviewService.ExtractFeedback | src/services/interviewService.ts:77-86 | Succeeds exactly when `feedback` is a string, and then yields it trimmed. A parse failure propagates; a bad shape gives the shape error. |
| InterviewService.EntryFeedbacks | src/services/interviewService.ts:102-107 | One settled feedback per answer. |
| InterviewService.EntryFeedbackAt | src/services/interviewService.ts:102-107 | The k-th settled feedback belongs to the k-th answer, written as the k-th prompt. |
| InterviewService.FeedbackFailurePersists | src/services/interviewService.ts:102-107 | Once one answer has failed, later answers do not change the outcome. |
| InterviewService.FeedbackKeepsOrder | src/services/interviewService.ts:100-109 | On success the list has one entry per answer, in the answers' order, each copying its question and answer unchanged and adding that answer's feedback. |
| InterviewService.FeedbackAllOrNothing | src/services/interviewService.ts:100-109 | The list is produced exactly when every answer got feedback; otherwise the outcome is the failure of the first answer that did not. |
| InterviewService.EntryFeedback | src/services/interviewService.ts:103-105 | A failed write's error propagates. The feedback is found exactly when the write succeeds and its reply yields a `feedback` string, and it is then trimmed. |
| InterviewService.FeedbackForEntry | src/services/interviewService.ts:103-106 | One pass of the loop settles as that answer's feedback: a failed write's error propagates, otherwise the reply's extracted feedback, which is trimmed when found. |
| InterviewService.CollectFeedback | src/services/interviewService.ts:100-109 | The loop's result is the all-or-nothing feedback list over every answer, in order. |
| InterviewService.AnalyzeAnswersWithWriter | src/services/interviewService.ts:88-110 | No answers give the empty list without a Writer. With answers but no Writer global it rejects. A failed create rejects with its error. Otherwise one writer is used for every answer. |
| InterviewService.AnalysisWithoutWriter | src/services/interviewService.ts:91-97 | No answers give the empty list even without a Writer; answers without a Writer give the unavailable error. |
| InterviewManager.WithoutLoader | src/hooks/useInterviewManager.ts:101-103 | Exactly the loaders whose id differs are kept, none added. |
| InterviewManager.WithLoader | src/hooks/useInterviewManager.ts:94-99 | The new loader is last; before it are exactly the other loaders, in order, none with that id. |
| InterviewManager.WithoutLoaderConcat | src/hooks/useInterviewManager.ts:102 | Removal keeps relative order: removing from a concatenation is removing from each part. |
| InterviewManager.WithoutAbsentLoader | src/hooks/useInterviewManager.ts:102 | Stopping an id nobody has changes nothing. |
| InterviewManager.WithoutLoaderIdempotent | src/hooks/useInterviewManager.ts:101-103 | Stopping a loader twice is stopping it once. |
| InterviewManager.WithoutLoaderDistinct | src/hooks/useInterviewManager.ts:101-103 | Stopping keeps indicator ids distinct. |
| InterviewManager.WithLoaderDistinct | src/hooks/useInterviewManager.ts:94-99 | Starting keeps indicator ids distinct. |
| InterviewManager.ShowingAfterStop | src/hooks/useInterviewManager.ts:101-103 | After stopping an id, an id shows exactly when it is another id that showed before. |
| InterviewManager.ShowingAfterStart | src/hooks/useInterviewManager.ts:94-99 | After starting an id, an id shows exactly when it is that id or showed before. |
| InterviewManager.CombinedTranscript | src/hooks/useInterviewManager.ts:219-222 | The combined transcript is always trimmed. |
| InterviewManager.CombinedOfTrimmed | src/hooks/useInterviewManager.ts:219-222 | With trimmed buffers nothing is cut: the settled text, a space and the interim text, or whichever is non-empty. |
| InterviewManager.CurrentQuestion | src/hooks/useInterviewManager.ts:224-233 | None exactly when the index is outside the list; otherwise the question at the index. |
| InterviewManager.Ended | src/hooks/useInterviewManager.ts:270-298 | An ended session is consistent, has no question, and its token is one more. |
| InterviewManager.EndedTwice | src/hooks/useInterviewManager.ts:270-298 | Ending twice is ending once, except that the token has moved on twice. |
| InterviewManager.AnswerStartedAfterEnd | src/hooks/useInterviewManager.ts:319-321 | A start that settles after the interview ended marks the ended session as answering and recording. |
| InterviewManager.EndedForgets | src/hooks/useInterviewManager.ts:270-298 | Nothing of the old session survives its end except its phase and token. |
| InterviewManager.SubmitRecordsOneAnswer | src/hooks/useInterviewManager.ts:352-370 | With a question, exactly one answer is appended under that question and the index moves on by one. Without one nothing changes. Answers stay in step with questions. |
| InterviewManager.AnswerStarted | src/hooks/useInterviewManager.ts:308-329 | Starting an answer never touches the questions, the position, the answers or the indicators. |
| InterviewManager.AnswerRestarted | src/hooks/useInterviewManager.ts:331-350 | Restarting an answer never touches the questions, the position, the answers or the indicators. |
| InterviewManager.Spoken | src/hooks/useInterviewManager.ts:235-268 | Reading a question aloud never touches the questions, the position, the answers or the indicators. |
| InterviewManager.Presented | src/hooks/useInterviewManager.ts:401-433 | Presenting a question never touches the questions, the position, the answers or the indicators. |
| InterviewManager.CompleteWhenAllAnswered | src/hooks/useInterviewManager.ts:410-419 | With no empty question, presenting declares the interview complete exactly when every question has its answer. |
| InterviewManager.EmptyQuestionCompletes | src/hooks/useInterviewManager.ts:410-417 | An empty generated question ends the interview with questions left unanswered. |
| InterviewManager.Ambient | src/hooks/useInterviewManager.ts:126-181 | An active interview changes nothing. Otherwise the phase is chosen in priority order: no permission, then a missing name or description, then the manual pause, then live listening, then starting. A missing prerequisite lifts the pause, and a launch marks a start in flight. |
| InterviewManager.AmbientSettled | src/hooks/useInterviewManager.ts:182-200 | Settling the start never touches the interview or the indicators. |
| InterviewManager.AmbientNoSecondStart | src/hooks/useInterviewManager.ts:172-180 | While a start is in flight, running the effect again never launches a second one. |
| InterviewManager.FailedStartStaysPaused | src/hooks/useInterviewManager.ts:189-199 | After a failed start the effect shows the pause and does not try again. |
| InterviewManager.AnalysisFinished | src/hooks/useInterviewManager.ts:385-398 | Afterwards no analysis is in flight and its indicator is gone. Success stores the feedback. Failure stores no results and the failure's message. |
| InterviewManager.AnalysisNotRestartedWhileRunning | src/hooks/useInterviewManager.ts:435-444 | Once begun, the analysis is no longer due. |
| InterviewManager.AnalysisRunsOnce | src/hooks/useInterviewManager.ts:372-444 | Once settled, the analysis is not due again. It either left one feedback per answer, or left an error (when the error's message is non-empty). |
| InterviewManager.Found | src/hooks/useInterviewManager.ts:536-570 | A list is found exactly when the reply parsed and its member is a non-empty array. |
| InterviewManager.VerifyIndicators | src/hooks/useInterviewManager.ts:503-530 | After the relevance check the keyword indicator stays only for a live attempt with a relevant description. |
| InterviewManager.KeywordsIndicators | src/hooks/useInterviewManager.ts:517-551 | After keyword extraction the keyword indicator is gone. The question indicator starts only for a live attempt with keywords. |
| InterviewManager.QuestionsIndicators | src/hooks/useInterviewManager.ts:553-590 | After question generation the question indicator is gone. |
| InterviewManager.StaleAttemptOnlyStopsItsIndicator | src/hooks/useInterviewManager.ts:506-590 | A stale attempt changes nothing but its own indicator, whatever its call settled with. |
| InterviewManager.EndedIgnoresPendingAttempt | src/hooks/useInterviewManager.ts:503-594 | After the interview ends, every pending attempt leaves the ended session exactly as it is. |
| InterviewManager.StaleCleanupStopsNewerIndicator | src/hooks/useInterviewManager.ts:484-530 | An older attempt settling after a newer one started takes down the newer one's keyword indicator. |
| InterviewManager.StartRunStopsIndicators | src/hooks/useInterviewManager.ts:496-590 | However an attempt ends, neither of its indicators is left showing (given no earlier question indicator). |
| InterviewManager.StartRunReportsFailure | src/hooks/useInterviewManager.ts:510-587 | An attempt that stops early reports the stage that stopped it. The interview becomes active exactly when all three stages succeed. |
| InterviewManager.StartRunStartsInterview | src/hooks/useInterviewManager.ts:483-577 | Three successful stages start the interview on the generated questions: first question, no answers, no analysis, the name greeted, the token one more. |
| InterviewManager.OpenedIsConsistent | src/hooks/useInterviewManager.ts:482-499 | Opening an attempt leaves a consistent session. |
| InterviewManager.VerifyKeepsConsistent | src/hooks/useInterviewManager.ts:503-530 | The relevance stage keeps the session consistent. |
| InterviewManager.KeywordsKeepConsistent | src/hooks/useInterviewManager.ts:517-551 | The keyword stage keeps the session consistent. |
| InterviewManager.QuestionsKeepConsistent | src/hooks/useInterviewManager.ts:553-590 | The question stage keeps the session consistent. |
| InterviewManager.AnalysisBegunKeepsConsistent | src/hooks/useInterviewManager.ts:377-383 | Beginning the analysis keeps the session consistent. |
| InterviewManager.AnalysisFinishedKeepsConsistent | src/hooks/useInterviewManager.ts:385-398 | Finishing the analysis keeps the session consistent. |
| InterviewManager.Manager.constructor | src/hooks/useInterviewManager.ts:66-92 | The hook's initial state: empty inputs, 3 questions, medium difficulty, asking for the microphone, nothing running, token 0. |
| InterviewManager.Manager.StartLoader | src/hooks/useInterviewManager.ts:94-99 | The indicators become `WithLoader` of the old ones, with ids kept distinct; nothing else changes. |
| InterviewManager.Manager.StopLoader | src/hooks/useInterviewManager.ts:101-103 | The indicators become `WithoutLoader` of the old ones, with ids kept distinct; nothing else changes. |
| InterviewManager.Manager.SupportEffect | src/hooks/useInterviewManager.ts:120-124 | An unsupported browser is told so; otherwise nothing changes. |
| InterviewManager.Manager.DescriptionEffect | src/hooks/useInterviewManager.ts:213-217 | Without a description both buffers are emptied; otherwise they stay. |
| InterviewManager.Manager.ClearCapture | src/hooks/useInterviewManager.ts:131-155 | A missing prerequisite lifts the pause, sets the phase and message, stops listening and empties both buffers. |
| InterviewManager.Manager.AmbientEffect | src/hooks/useInterviewManager.ts:126-211 | The session moves as `Ambient` says. A missing prerequisite also stops and clears the capture. Listening is started exactly when `AmbientLaunches` holds. The start then settles as `StartOutcome` with permission held, so it succeeds exactly when the hook is supported, has a recogniser and `recognition.start()` does not throw. Every field of the hook is stated afterwards: the error and interim buffer are cleared when the start is reached, and listening is on exactly when it succeeded. |
| InterviewManager.Manager.SettleAmbientStart | src/hooks/useInterviewManager.ts:182-200 | The session moves as `AmbientSettled` says and stays consistent. |
| InterviewManager.Manager.SpeakQuestion | src/hooks/useInterviewManager.ts:235-251 | The session moves as `Spoken` says. |
| InterviewManager.Manager.NarrationEnded | src/hooks/useInterviewManager.ts:253-264 | Narration stops; a failure is reported; nothing else changes. |
| InterviewManager.Manager.PlayQuestion | src/hooks/useInterviewManager.ts:300-306 | The current question is read out if there is one; otherwise nothing changes. |
| InterviewManager.Manager.PresentCurrent | src/hooks/useInterviewManager.ts:401-433 | The session moves as `Presented` says. Inside an interview, capture also stops and both buffers are emptied; outside one the speech hook is untouched. |
| InterviewManager.Manager.BeginStartAnswer | src/hooks/useInterviewManager.ts:308-319 | Listening is to start exactly when the interview is active and has a question; then both buffers are cleared, otherwise nothing changes. The session is untouched. |
| InterviewManager.Manager.SettleStartAnswer | src/hooks/useInterviewManager.ts:319-328 | Whatever the session is by the time the start settles, it moves as `AnswerStarted` says. |
| InterviewManager.Manager.HandleStartAnswer | src/hooks/useInterviewManager.ts:308-329 | With nothing running while listening starts: without an active interview and a question nothing happens. Otherwise both buffers are cleared, the start settles as `StartOutcome` and the session moves as `AnswerStarted` says. The permission, the error and the listening flag are stated as `StartListening` leaves them. |
| InterviewManager.Manager.BeginRestartAnswer | src/hooks/useInterviewManager.ts:331-339 | Acts exactly while answering: both buffers are cleared. Still listening, the restart is reported at once; otherwise listening is to be restarted and the session is untouched. |
| InterviewManager.Manager.SettleRestartAnswer | src/hooks/useInterviewManager.ts:339-349 | Whatever the session is by the time the restart settles, it moves as `AnswerRestarted` says. |
| InterviewManager.Manager.HandleRestartAnswer | src/hooks/useInterviewManager.ts:331-350 | With nothing running while listening restarts: when not answering nothing happens. Otherwise both buffers are cleared and the session moves as `AnswerRestarted` says. Still listening, it succeeds and leaves the permission and error alone. Stopped, it settles as `StartOutcome`, with permission, error and listening as `StartListening` leaves them. |
| InterviewManager.Manager.HandleSubmitAnswer | src/hooks/useInterviewManager.ts:352-370 | The session moves as `Submitted` says, with the trimmed combined transcript as the answer. With a question, listening also stops. |
| InterviewManager.Manager.EndInterview | src/hooks/useInterviewManager.ts:270-298 | Capture stops and both buffers are emptied; the session becomes `Ended` of the old one; the form inputs stay. |
| InterviewManager.Manager.BeginAnalysis | src/hooks/useInterviewManager.ts:372-383 | Without answers nothing happens. Otherwise the session moves as `AnalysisBegun` says and the answers are handed to the service. |
| InterviewManager.Manager.FinishAnalysis | src/hooks/useInterviewManager.ts:385-398 | The session moves as `AnalysisFinished` says and stays consistent. |
| InterviewManager.Manager.AnalysisEffect | src/hooks/useInterviewManager.ts:435-452 | The analysis starts exactly when `AnalysisDue` holds; otherwise nothing changes. |
| InterviewManager.Manager.StartInterview | src/hooks/useInterviewManager.ts:462-476 | Nothing happens without a Writer global. A blank name only asks for the name. Otherwise the trimmed name and the inputs are captured and the token is untouched. |
| InterviewManager.Manager.ResumeAfterAvailability | src/hooks/useInterviewManager.ts:476-499 | Only "available" opens an attempt with the next token, clearing the previous questions, answers and analysis and starting the keyword indicator. Every other answer changes nothing. |
| InterviewManager.Manager.ResumeAfterVerify | src/hooks/useInterviewManager.ts:503-530 | The session moves as `AfterVerify` says; only a live attempt with a relevant description proceeds. |
| InterviewManager.Manager.ResumeAfterKeywords | src/hooks/useInterviewManager.ts:517-551 | The session moves as `AfterKeywords` says; a live attempt proceeds with the keywords found. |
| InterviewManager.Manager.ResumeAfterQuestions | src/hooks/useInterviewManager.ts:553-594 | The session moves as `AfterQuestions` says. |

## Left out

- **Browser and AI objects.** `SpeechRecognition`, `getUserMedia`, `Writer.create`, `writer.write`, `recognition.start()`, `Writer.availability()` and `JSON.parse` are parameters: either how the call settles, or an uninterpreted function. Their internals are not modelled.
- **JSON.** A parsed value is a small datatype whose arrays hold strings only, which is what the response types declare. Numbers are integers. Arrays of other values are not modelled.
- **Speech synthesis.** It is reduced to the `isNarrating` and `narrationError` flags. The utterance, `speechSynthesis.cancel()` and the unmount effect that cancels it (src/hooks/useInterviewManager.ts:454-460) are not modelled. `InterviewManager.Manager.NarrationEnded` stands for the utterance's end and error events.
- **Asynchrony.** In the controller, interleaving happens only at the `await` points, each modelled as a separate method. A call that never settles is not modelled.
- **Awaits inside the speech and download hooks.** `SpeechRecognition.Recognizer.StartListening` runs straight through its `await` of `getUserMedia` (src/hooks/useSpeechRecognition.ts:107). A recognition event arriving while the prompt is open is not modelled in between. `DownloadManager.DownloadManager.Mount` and `DownloadManager.DownloadManager.OnStartDownload` likewise run straight through their awaits (src/hooks/useDownloadManager.tsx:23, 97, 107). A mount probe settling in the middle of a download is not modelled, nor are two overlapping downloads. The "downloading" value set before the create is recorded in `shown`.
- **React.** Re-rendering, dependency arrays and `useMemo`/`useCallback` are not modelled. Each effect is a method that the environment calls when its inputs change.
- **The Writer probe in startInterview.** A rejection of `availability()` (src/hooks/useInterviewManager.ts:476) surfaces to the caller of `startInterview`. The model treats it like any answer other than "available": nothing changes.
- **Logging.** `console` calls are left out; they change no state.
- **Download progress.** The progress monitor with its floating-point percentage (src/hooks/useDownloadManager.tsx:99-104) is not part of this model.
- **Text.** Strings are sequences of `char` (code points), not UTF-16 code units. This makes no difference to the operations used: trim, includes, replace and join.
- **Large versions.** `parseInt` of a digit run is exact, so very long version numbers are not rounded as a JavaScript number would be.
- **The speech hook's error.** The manager only passes it on to the page (src/hooks/useInterviewManager.ts:616), so it plays no part in the controller model.
- **Form setters.** `setJobDescription`, `setCandidateName`, `setQuestionCount` and `setDifficulty` are plain assignments to the `Manager` fields of the same names, and are not separate methods.
- **Other modules.** src/utils/writerSetup.ts, src/services/firebaseAnalytics.ts, the components and the copy constants are not part of this model.
- InterviewManager.AnalysisRunsOnce: needs the failure's message to be non-empty. An `Error` thrown with an empty message leaves a falsy `analysisError`, so the analysis runs again.
- InterviewManager.StartRunStopsIndicators: needs no question indicator of an earlier attempt to be showing when the attempt starts. An attempt that stops before its question stage leaves such an indicator up, because only the earlier attempt's cleanup removes it.
