/** The prompt builders of the generation gateway: the relevance-check prompt, the
    keyword-extraction prompt, the question-generation prompt and the answer-feedback
    prompt.  All of them are pure string assembly.
 */
module Prompts {
  import opened Text

  datatype Difficulty = Easy | Medium | Hard

  /** The wording the question prompt uses for a difficulty. */
  function DifficultyLabel(d: Difficulty): string {
    match d
    case Easy => "easy, introductory"
    case Hard => "challenging, senior-level"
    case Medium => "balanced, mid-level"
  }

  /** Distinct difficulties are worded differently, so the prompt tells the model which
      one was chosen. */
  lemma DifficultyLabelInjective(a: Difficulty, b: Difficulty)
    ensures DifficultyLabel(a) == DifficultyLabel(b) <==> a == b
  {
  }

  // ---------------------------------------------------------------- the candidate's name

  const IntroTail := ", could you please walk me through your background?"

  /** The fixed first question the model is told to ask, addressed to the trimmed
      name, or to "there" when the name is blank. */
  function IntroQuestion(candidateName: string): string {
    var target := Trim(candidateName);
    (if target == [] then "Hi there" else "Hi " + target) + IntroTail
  }

  /** Who the question prompt says the interviewer is talking to. */
  function AddressedName(candidateName: string): string {
    var target := Trim(candidateName);
    if target == [] then "the candidate" else target
  }

  /** A named candidate is greeted with exactly their trimmed name, which can be read
      back out of the greeting; a blank name gives the anonymous greeting. */
  lemma IntroQuestionGreets(candidateName: string)
    ensures var q := IntroQuestion(candidateName);
      && StartsWith(q, "Hi ") && |q| >= 3 + |IntroTail|
      && q[|q| - |IntroTail|..] == IntroTail
      && (IsBlank(candidateName) ==> q[3..|q| - |IntroTail|] == "there")
      && (!IsBlank(candidateName) ==> q[3..|q| - |IntroTail|] == Trim(candidateName))
  {
    var target := Trim(candidateName);
    var q := IntroQuestion(candidateName);
    var greeting := if target == [] then "Hi there" else "Hi " + target;
    assert q == greeting + IntroTail;
    assert q[|q| - |IntroTail|..] == IntroTail;
    assert q[3..|q| - |IntroTail|] == greeting[3..];
  }

  /** The addressed name is never blank: a blank name becomes "the candidate", any
      other name is used trimmed. */
  lemma AddressedNameNeverBlank(candidateName: string)
    ensures AddressedName(candidateName) != []
    ensures !IsBlank(candidateName) ==> AddressedName(candidateName) == Trim(candidateName)
    ensures IsTrimmed(AddressedName(candidateName))
  {
  }

  // ---------------------------------------------------------------- JSON.stringify of the keywords

  function HexDigit(d: nat): (c: char)
    requires d < 16
  {
    if d < 10 then DigitChar(d) else (('a' as int) + d - 10) as char
  }

  predicate IsHexDigit(c: char) {
    IsDigit(c) || 'a' <= c <= 'f'
  }

  function HexValue(c: char): nat
    requires IsHexDigit(c)
  {
    if IsDigit(c) then DigitValue(c) else (c as int) - ('a' as int) + 10
  }

  /** How `JSON.stringify` writes one character inside a string literal. */
  function EscapeChar(c: char): string {
    if c == '\U{8}' then "\\b"
    else if c == '\t' then "\\t"
    else if c == '\n' then "\\n"
    else if c == '\U{C}' then "\\f"
    else if c == '\r' then "\\r"
    else if c == '"' then "\\\""
    else if c == '\\' then "\\\\"
    else if (c as int) < 0x20 then "\\u00" + [HexDigit((c as int) / 16), HexDigit((c as int) % 16)]
    else [c]
  }

  function Escape(s: string): string
    decreases |s|
  {
    if s == [] then [] else EscapeChar(s[0]) + Escape(s[1..])
  }

  /** `JSON.stringify` of a string. */
  function Quote(s: string): string {
    "\"" + Escape(s) + "\""
  }

  function QuoteAll(items: seq<string>): (r: seq<string>)
    ensures |r| == |items| && forall i :: 0 <= i < |items| ==> r[i] == Quote(items[i])
  {
    if items == [] then [] else [Quote(items[0])] + QuoteAll(items[1..])
  }

  /** `JSON.stringify` of an array of strings. */
  function KeywordsJson(keywords: seq<string>): string {
    "[" + Join(QuoteAll(keywords), ",") + "]"
  }

  /** Reads back the escapes `JSON.stringify` writes into a string literal. */
  function Unescape(e: string): string
    decreases |e|
  {
    if e == [] then []
    else if e[0] == '\\' && |e| >= 6 && e[1] == 'u' && e[2] == '0' && e[3] == '0'
            && IsHexDigit(e[4]) && IsHexDigit(e[5]) && HexValue(e[4]) < 2 then
      [(HexValue(e[4]) * 16 + HexValue(e[5])) as char] + Unescape(e[6..])
    else if e[0] == '\\' && |e| >= 2 then
      [match e[1]
       case 'b' => '\U{8}' case 't' => '\t' case 'n' => '\n' case 'f' => '\U{C}'
       case 'r' => '\r' case _ => e[1]] + Unescape(e[2..])
    else [e[0]] + Unescape(e[1..])
  }

  lemma HexDigitValue(d: nat)
    requires d < 16
    ensures IsHexDigit(HexDigit(d)) && HexValue(HexDigit(d)) == d
  {
  }

  /** A control character without a short escape is written as `\u00` and two hex
      digits, and reads back from them. */
  lemma UnescapeControl(c: char, rest: string)
    requires (c as int) < 0x20 && c != '\U{8}' && c != '\t' && c != '\n' && c != '\U{C}' && c != '\r'
    ensures Unescape(EscapeChar(c) + rest) == [c] + Unescape(rest)
  {
    var n := c as int;
    HexDigitValue(n / 16);
    HexDigitValue(n % 16);
    var e := EscapeChar(c) + rest;
    assert e[..6] == "\\u00" + [HexDigit(n / 16), HexDigit(n % 16)];
    assert e[6..] == rest;
    assert (HexValue(e[4]) * 16 + HexValue(e[5])) as char == c;
  }

  /** A character with a two-character escape reads back from it. */
  lemma UnescapeShort(c: char, rest: string)
    requires c == '\U{8}' || c == '\t' || c == '\n' || c == '\U{C}' || c == '\r' || c == '"' || c == '\\'
    ensures Unescape(EscapeChar(c) + rest) == [c] + Unescape(rest)
  {
    var e := EscapeChar(c) + rest;
    assert e[2..] == rest;
  }

  /** One escaped character decodes back to itself, whatever follows it. */
  lemma UnescapeChar(c: char, rest: string)
    ensures Unescape(EscapeChar(c) + rest) == [c] + Unescape(rest)
  {
    if (c as int) < 0x20 && c != '\U{8}' && c != '\t' && c != '\n' && c != '\U{C}' && c != '\r' {
      UnescapeControl(c, rest);
    } else if c == '\U{8}' || c == '\t' || c == '\n' || c == '\U{C}' || c == '\r' || c == '"' || c == '\\' {
      UnescapeShort(c, rest);
    } else {
      var e := EscapeChar(c) + rest;
      assert e[1..] == rest;
    }
  }

  /** Escaping loses nothing: the literal `JSON.stringify` writes decodes to the
      original text. */
  lemma {:induction false} EscapeRoundTrip(s: string)
    ensures Unescape(Escape(s)) == s
    decreases |s|
  {
    if s != [] {
      UnescapeChar(s[0], Escape(s[1..]));
      EscapeRoundTrip(s[1..]);
      assert [s[0]] + s[1..] == s;
    }
  }

  /** Each keyword appears in the keyword line as its own JSON string literal. */
  lemma KeywordsJsonLists(keywords: seq<string>, i: nat)
    requires i < |keywords|
    ensures Contains(KeywordsJson(keywords), Quote(keywords[i]))
  {
    var q := QuoteAll(keywords);
    JoinPartAt(q, ",", i);
    OccursInConcat("[", Join(q, ","), "]");
    OccursWithin(KeywordsJson(keywords), Join(q, ","), 1, q[i], JoinOffset(q, ",", i));
  }

  // ---------------------------------------------------------------- question generation

  function CountAsk(questionCount: int): string {
    "Generate exactly " + IntToString(questionCount) + " interview questions"
  }

  function TailoredTo(wording: string): string {
    "each tailored to " + wording + " difficulty."
  }

  function QuestionCountLine(questionCount: int, wording: string): string {
    CountAsk(questionCount) + " in natural, conversational language, " + TailoredTo(wording)
  }

  function FirstQuestionLine(intro: string): string {
    "- Q1 MUST be exactly: \"" + intro + "\"."
  }

  function ValidationAsk(questionCount: int): string {
    "- Exactly " + IntToString(questionCount) + " strings in the array"
  }

  function ValidationCountLine(questionCount: int): string {
    ValidationAsk(questionCount) + " (unless empty due to no keywords)."
  }

  function SpeakTo(addressedName: string): string {
    "speak as if talking directly to " + addressedName + "."
  }

  function AddressLine(addressedName: string): string {
    "1) Use second person (\"you\") and " + SpeakTo(addressedName)
  }

  const Opening: seq<string> := ["You are an expert technical interviewer.", "", "Input Keywords:"]

  const TaskHeading: seq<string> := ["", "Task:"]

  const RequirementsHeading: seq<string> := ["", "Hard Requirements:"]

  const Requirements: seq<string> := [
    "2) Each question must be ONE sentence and at most 25 words.",
    "3) Do not include numbering, bullets, headings, notes, or explanations.",
    "4) Questions must be unique (no duplicates or near-duplicates).",
    "5) Ground questions ONLY in the provided keywords; do not invent tools/tech that aren\U{2019}t present.",
    "6) If no meaningful technical keywords are present, return an empty list (no generic questions).",
    "",
    "Ordering Rules:"
  ]

  const Ordering: seq<string> := [
    "- Q2..Q(n-1): cover the provided keywords (mix fundamentals, applied problem-solving, design, trade-offs).",
    "- Qn: ask motivation/fit for the role (e.g., \U{201C}Why do you think you\U{2019}re a strong fit for this role?\U{201D}).",
    "",
    "Style & Calibration:"
  ]

  const Style: seq<string> := [
    "- Prefer realistic, scenario-based prompts over trivia.",
    "- Avoid company-specific details, soft-skill-only prompts, or leading answers.",
    "",
    "Validation (must pass all):"
  ]

  const Closing: seq<string> := [
    "- Each string \U{2264} 25 words, single sentence, second person, no prefixes like \U{201C}Q1:\U{201D} or numbering.",
    "",
    "Output format (strict):",
    "Return ONLY valid JSON with this exact schema:",
    "{\"questions\":[\"q1\",\"q2\",\"...\"]}",
    "Use standard double quotes, no trailing commas, and no extra text outside the JSON."
  ]

  /** The layout of the question prompt: fixed blocks around the six lines that depend
      on the keywords, the count, the difficulty and the name. */
  function QuestionLayout(keywordLine: string, countLine: string, addressLine: string,
                          firstLine: string, calibrationLine: string, validationLine: string): seq<string>
  {
    Opening + [keywordLine] + TaskHeading + [countLine] + RequirementsHeading + [addressLine]
      + Requirements + [firstLine] + Ordering + [calibrationLine] + Style + [validationLine] + Closing
  }

  /** Where the six variable lines sit in the layout. */
  lemma QuestionLayoutPlaces(keywordLine: string, countLine: string, addressLine: string,
                             firstLine: string, calibrationLine: string, validationLine: string)
    ensures var lines := QuestionLayout(keywordLine, countLine, addressLine, firstLine, calibrationLine, validationLine);
      && |lines| == 34 && lines[3] == keywordLine && lines[6] == countLine && lines[9] == addressLine
      && lines[17] == firstLine && lines[22] == calibrationLine && lines[27] == validationLine
  {
  }

  function QuestionPromptLines(keywords: seq<string>, questionCount: int, difficulty: Difficulty,
                               candidateName: string): seq<string>
  {
    var wording := DifficultyLabel(difficulty);
    QuestionLayout(KeywordsJson(keywords), QuestionCountLine(questionCount, wording),
                   AddressLine(AddressedName(candidateName)), FirstQuestionLine(IntroQuestion(candidateName)),
                   "- Calibrate difficulty to " + wording + ".", ValidationCountLine(questionCount))
  }

  /** The question-generation prompt: the lines above joined with newlines. */
  function BuildQuestionPrompt(keywords: seq<string>, questionCount: int, difficulty: Difficulty,
                               candidateName: string): string
  {
    Join(QuestionPromptLines(keywords, questionCount, difficulty, candidateName), "\n")
  }

  /** A piece of line `i` of the question prompt is a piece of the prompt. */
  lemma PromptLineHasPiece(keywords: seq<string>, questionCount: int, difficulty: Difficulty,
                           candidateName: string, i: nat, piece: string, k: int)
    requires i < |QuestionPromptLines(keywords, questionCount, difficulty, candidateName)|
    requires OccursAt(QuestionPromptLines(keywords, questionCount, difficulty, candidateName)[i], piece, k)
    ensures Contains(BuildQuestionPrompt(keywords, questionCount, difficulty, candidateName), piece)
  {
    JoinContains(QuestionPromptLines(keywords, questionCount, difficulty, candidateName), "\n", i, piece, k);
  }

  /** Where the count and the difficulty sit in the count line. */
  lemma CountLinePieces(questionCount: int, wording: string)
    ensures var line := QuestionCountLine(questionCount, wording);
      && OccursAt(line, CountAsk(questionCount), 0)
      && OccursAt(line, TailoredTo(wording), |line| - |TailoredTo(wording)|)
  {
    var middle := " in natural, conversational language, ";
    var head, tail := CountAsk(questionCount), TailoredTo(wording);
    assert QuestionCountLine(questionCount, wording) == head + middle + tail;
    Associate(head, middle, tail);
    OccursAtStart(head, middle + tail);
    OccursAtEnd(head + middle, tail);
  }

  /** The question prompt asks for exactly `questionCount` questions, at the chosen
      difficulty, and repeats the count in its validation checklist. */
  lemma QuestionPromptAsksCount(keywords: seq<string>, questionCount: int, difficulty: Difficulty,
                                candidateName: string)
    ensures var p := BuildQuestionPrompt(keywords, questionCount, difficulty, candidateName);
      && Contains(p, "Generate exactly " + IntToString(questionCount) + " interview questions")
      && Contains(p, "each tailored to " + DifficultyLabel(difficulty) + " difficulty.")
      && Contains(p, "- Exactly " + IntToString(questionCount) + " strings in the array")
  {
    var wording := DifficultyLabel(difficulty);
    var countLine := QuestionCountLine(questionCount, wording);
    QuestionLayoutPlaces(KeywordsJson(keywords), countLine, AddressLine(AddressedName(candidateName)),
                         FirstQuestionLine(IntroQuestion(candidateName)),
                         "- Calibrate difficulty to " + wording + ".", ValidationCountLine(questionCount));
    CountLinePieces(questionCount, wording);
    PromptLineHasPiece(keywords, questionCount, difficulty, candidateName, 6, CountAsk(questionCount), 0);
    PromptLineHasPiece(keywords, questionCount, difficulty, candidateName, 6, TailoredTo(wording),
                       |countLine| - |TailoredTo(wording)|);
    OccursAtStart(ValidationAsk(questionCount), " (unless empty due to no keywords).");
    PromptLineHasPiece(keywords, questionCount, difficulty, candidateName, 27, ValidationAsk(questionCount), 0);
  }

  /** The question prompt quotes the fixed first question verbatim. */
  lemma QuestionPromptQuotesIntro(keywords: seq<string>, questionCount: int, difficulty: Difficulty,
                                  candidateName: string)
    ensures Contains(BuildQuestionPrompt(keywords, questionCount, difficulty, candidateName),
                     "- Q1 MUST be exactly: \"" + IntroQuestion(candidateName) + "\".")
  {
    var wording := DifficultyLabel(difficulty);
    var q1 := FirstQuestionLine(IntroQuestion(candidateName));
    QuestionLayoutPlaces(KeywordsJson(keywords), QuestionCountLine(questionCount, wording),
                         AddressLine(AddressedName(candidateName)), q1,
                         "- Calibrate difficulty to " + wording + ".", ValidationCountLine(questionCount));
    OccursWhole(q1);
    PromptLineHasPiece(keywords, questionCount, difficulty, candidateName, 17, q1, 0);
  }

  /** The question prompt tells the model to speak to the addressed name. */
  lemma QuestionPromptAddresses(keywords: seq<string>, questionCount: int, difficulty: Difficulty,
                                candidateName: string)
    ensures Contains(BuildQuestionPrompt(keywords, questionCount, difficulty, candidateName),
                     "speak as if talking directly to " + AddressedName(candidateName) + ".")
  {
    var wording := DifficultyLabel(difficulty);
    var who := AddressedName(candidateName);
    QuestionLayoutPlaces(KeywordsJson(keywords), QuestionCountLine(questionCount, wording), AddressLine(who),
                         FirstQuestionLine(IntroQuestion(candidateName)),
                         "- Calibrate difficulty to " + wording + ".", ValidationCountLine(questionCount));
    var whoHead := "1) Use second person (\"you\") and ";
    OccursAtEnd(whoHead, SpeakTo(who));
    PromptLineHasPiece(keywords, questionCount, difficulty, candidateName, 9, SpeakTo(who), |whoHead|);
  }

  /** Every keyword reaches the question prompt as its own JSON string literal. */
  lemma QuestionPromptCarriesKeywords(keywords: seq<string>, questionCount: int, difficulty: Difficulty,
                                      candidateName: string, i: nat)
    requires i < |keywords|
    ensures Contains(BuildQuestionPrompt(keywords, questionCount, difficulty, candidateName), Quote(keywords[i]))
  {
    var wording := DifficultyLabel(difficulty);
    var line := KeywordsJson(keywords);
    QuestionLayoutPlaces(line, QuestionCountLine(questionCount, wording), AddressLine(AddressedName(candidateName)),
                         FirstQuestionLine(IntroQuestion(candidateName)),
                         "- Calibrate difficulty to " + wording + ".", ValidationCountLine(questionCount));
    KeywordsJsonLists(keywords, i);
    var k :| 0 <= k <= |line| && OccursAt(line, Quote(keywords[i]), k);
    PromptLineHasPiece(keywords, questionCount, difficulty, candidateName, 3, Quote(keywords[i]), k);
  }

  // ---------------------------------------------------------------- answer feedback

  const AnalysisHead := "You are reviewing an interview response and must deliver constructive feedback.\nQuestion: "

  const AnalysisTail :=
    "\n\n"
    + "Evaluate how well the answer addresses the question, call out any gaps, missing specifics, or misconceptions, and provide concrete suggestions to improve it.\n\n"
    + "Provide the feedback using second person (\"you\")"
    + "Return ONLY valid JSON with exactly this schema:\n"
    + "{\"feedback\":\"Your concise feedback here\"}\n"
    + "- Use plain sentences.\n"
    + "- Keep feedback under 120 words.\n"
    + "- Do not include lists, bullets, or numbering.\n"
    + "- Do not add any text outside the JSON."

  /** `answer || "No answer provided."`: only the empty string is replaced. */
  function ShownAnswer(answer: string): string {
    if answer == "" then "No answer provided." else answer
  }

  /** The prompt that asks for feedback on one answer. */
  function BuildAnswerAnalysisPrompt(question: string, answer: string): string {
    AnalysisHead + question + "\nAnswer: " + ShownAnswer(answer) + AnalysisTail
  }

  /** The feedback prompt carries the question unchanged at a fixed place, never shows
      an empty answer, shows a non-empty answer unchanged, and ends with the fixed
      instructions. */
  lemma AnalysisPromptQuotes(question: string, answer: string)
    ensures var p := BuildAnswerAnalysisPrompt(question, answer);
      && StartsWith(p, AnalysisHead + question + "\nAnswer: ")
      && p[|AnalysisHead|..|AnalysisHead| + |question|] == question
      && |p| >= |AnalysisTail| && p[|p| - |AnalysisTail|..] == AnalysisTail
      && var shown := p[|AnalysisHead| + |question| + 9..|p| - |AnalysisTail|];
         shown != "" && (answer != "" ==> shown == answer)
         && (answer == "" ==> shown == "No answer provided.")
  {
    var p := BuildAnswerAnalysisPrompt(question, answer);
    var head := AnalysisHead + question + "\nAnswer: ";
    assert p == head + ShownAnswer(answer) + AnalysisTail;
    assert p[..|head|] == head;
    assert p[|AnalysisHead|..|AnalysisHead| + |question|] == head[|AnalysisHead|..|AnalysisHead| + |question|];
    assert p[|p| - |AnalysisTail|..] == AnalysisTail;
    assert p[|head|..|p| - |AnalysisTail|] == ShownAnswer(answer);
  }

  // ---------------------------------------------------------------- keywords and relevance

  const KeywordIntro := "Act as an ATS scanner and read the following job description."

  const KeywordInstructionParts := [
    "Extract only the technical keywords that would inform generating interview questions.",
    "Return ONLY valid JSON with this schema: {\"keywords\":[\"Keyword1\",\"Keyword2\",...]}.",
    "If the description is irrelevant or lacks technical details, return {\"keywords\":[]}.",
    "Do not include any text outside the JSON response."
  ]

  const KeywordInstructions := Join(KeywordInstructionParts, "\n\n")

  /** A prompt made of an introduction, a description and instructions, as separate
      paragraphs. */
  function Paragraphs(intro: string, description: string, instructions: seq<string>): string {
    Join([intro, description] + instructions, "\n\n")
  }

  /** The keyword-extraction prompt. */
  function BuildKeywordPrompt(jobDescription: string): string {
    Paragraphs(KeywordIntro, Trim(jobDescription), KeywordInstructionParts)
  }

  const RelevanceIntro := "Following is the job description"

  const RelevanceInstructionParts := [
    "If the job description is irrelevant or lacks technical details, return {\"result\":false} else return {\"result\":true}",
    "Do not include any text outside the JSON response."
  ]

  const RelevanceInstructions := Join(RelevanceInstructionParts, "\n\n")

  /** The relevance-check prompt. */
  function AnalyseJD(jobDescription: string): string {
    Paragraphs(RelevanceIntro, Trim(jobDescription), RelevanceInstructionParts)
  }

  /** The paragraphs appear in order, one blank line apart, and the description can be
      cut back out of the prompt. */
  lemma ParagraphsShape(intro: string, description: string, instructions: seq<string>)
    requires instructions != []
    ensures var p := Paragraphs(intro, description, instructions);
      var tail := Join(instructions, "\n\n");
      && p == intro + "\n\n" + description + "\n\n" + tail
      && p[|intro| + 2..|p| - |tail| - 2] == description
  {
    var parts := [intro, description] + instructions;
    assert parts[0] == intro && parts[1..][0] == description;
    assert parts[1..][1..] == instructions;
    var tail := Join(instructions, "\n\n");
    assert Join(parts[1..], "\n\n") == description + "\n\n" + tail;
    var p := Paragraphs(intro, description, instructions);
    assert p == intro + "\n\n" + (description + "\n\n" + tail);
    assert p == (intro + "\n\n") + description + ("\n\n" + tail);
  }

  /** The keyword prompt is the fixed introduction, the trimmed description and the fixed
      instructions, separated by blank lines; the description can be cut back out. */
  lemma KeywordPromptShape(jobDescription: string)
    ensures var p := BuildKeywordPrompt(jobDescription);
      && p == KeywordIntro + "\n\n" + Trim(jobDescription) + "\n\n" + KeywordInstructions
      && p[|KeywordIntro| + 2..|p| - |KeywordInstructions| - 2] == Trim(jobDescription)
  {
    ParagraphsShape(KeywordIntro, Trim(jobDescription), KeywordInstructionParts);
  }

  /** The relevance prompt is the fixed introduction, the trimmed description and the
      fixed instructions, separated by blank lines; the description can be cut back out. */
  lemma RelevancePromptShape(jobDescription: string)
    ensures var p := AnalyseJD(jobDescription);
      && p == RelevanceIntro + "\n\n" + Trim(jobDescription) + "\n\n" + RelevanceInstructions
      && p[|RelevanceIntro| + 2..|p| - |RelevanceInstructions| - 2] == Trim(jobDescription)
  {
    ParagraphsShape(RelevanceIntro, Trim(jobDescription), RelevanceInstructionParts);
  }
}
